/** When an edit of the skill registry is accepted, what it stores, and that later executions use it. */
module SkillEdits {
  import opened Strings
  import opened SkillGraph
  import opened SkillRegistry

  predicate Named(id: string) {
    && 1 <= |id| <= 64 && 'a' <= id[0] <= 'z'
    && forall c :: c in id ==> 'a' <= c <= 'z' || '0' <= c <= '9' || c == '_' || c == '-'
  }

  lemma NamedIsId(id: string)
    ensures IsId(id) <==> Named(id)
  {
    if Named(id) {
      forall i | 1 <= i < |id| ensures Lower(id[i]) || '0' <= id[i] <= '9' || id[i] == '_' || id[i] == '-' {
        assert id[i] in id;
      }
    }
  }

  /** Which texts and dependencies a record may have before the graph is looked at. */
  lemma WhatNormalizes(s: Skill)
    ensures TextsOk(s) <==>
      && Named(Trim(s.id)) && Trim(s.name) != "" && |Trim(s.name)| <= 100 && |Trim(s.description)| <= 400
      && Trim(s.instructions) != "" && |Trim(s.instructions)| <= 16_000 && s.kind in {"chat", "mail_summary"}
    ensures DepsOk(Trim(s.id), TrimAll(s.deps)) <==>
      && |s.deps| <= 12 && (forall i :: 0 <= i < |s.deps| ==> Named(Trim(s.deps[i])) && Trim(s.deps[i]) != Trim(s.id))
      && forall i, j :: 0 <= i < j < |s.deps| ==> Trim(s.deps[i]) != Trim(s.deps[j])
  {
    NamedIsId(Trim(s.id));
    var all := TrimAll(s.deps);
    forall i | 0 <= i < |s.deps| ensures IsId(Trim(s.deps[i])) <==> Named(Trim(s.deps[i])) {
      NamedIsId(Trim(s.deps[i]));
    }
    assert forall i :: 0 <= i < |s.deps| ==> all[i] == Trim(s.deps[i]);
  }

  /** A save is a compare-and-swap that keeps the kind, and it stores the given record under the next revision. */
  lemma SkillIsStored(r: Registry, s: Skill, expected: int)
    ensures var known := s.id in r.skills;
      var row := Skill(s.id, s.name, s.description, s.instructions, s.kind, s.deps, s.enabled,
                       known && r.skills[s.id].builtIn, if known then r.skills[s.id].revision + 1 else 1);
      var z := r.(skills := r.skills[s.id := row]);
      && (Accepted(r, Save(s, expected)) <==>
            && (if known then expected != 0 && expected == r.skills[s.id].revision && r.skills[s.id].kind == s.kind
                else expected == 0)
            && ValidGraph(z.skills, r.active))
      && Apply(r, Save(s, expected)) == if Accepted(r, Save(s, expected)) then z else r
  {}

  /** A deletion takes the one skill, a selection replaces the summary skill; with a revision both compare it. */
  lemma OtherEditsAreStored(r: Registry, id: string, expected: int)
    ensures Accepted(r, Delete(id, expected)) <==>
      && id in r.skills && (expected <= 0 || r.skills[id].revision == expected)
      && ValidGraph(r.skills - {id}, r.active)
    ensures Accepted(r, Select(id, expected)) <==>
      && id in r.skills && (expected <= 0 || r.skills[id].revision == expected)
      && Resolvable(r.skills, "mail_summary", id)
    ensures Apply(r, Delete(id, expected)) ==
      if Accepted(r, Delete(id, expected)) then Registry(r.skills - {id}, r.active) else r
    ensures Apply(r, Select(id, expected)) ==
      if Accepted(r, Select(id, expected)) then Registry(r.skills, id) else r
  {}

  function Heading(s: Skill): string {
    "\nSkill " + s.id + " (revision " + Decimal(s.revision) + "):\n"
  }

  lemma BlockHolds(s: Skill)
    ensures Block(s) == Heading(s) + s.instructions + "\n"
  {}

  lemma Regroup(a: string, b: string, c: string, d: string)
    ensures a + (b + c + d) == (a + b) + c + d
    ensures (a + b + c) + d == a + b + (c + d)
  {}

  /** The text of every listed skill is part of the whole. */
  lemma {:induction false} TextHolds(g: Graph, order: seq<string>, x: string) returns (a: string, b: string)
    requires (forall y :: y in order ==> y in g) && x in order
    ensures Text(g, order) == a + g[x].instructions + b
    decreases |order|
  {
    var n := |order| - 1;
    var last := Block(g[order[n]]);
    if order[n] == x {
      BlockHolds(g[x]);
      Regroup(Text(g, order[..n]), Heading(g[x]), g[x].instructions, "\n");
      a, b := Text(g, order[..n]) + Heading(g[x]), "\n";
    } else {
      var c;
      a, c := TextHolds(g, order[..n], x);
      Regroup(a, g[x].instructions, c, last);
      b := c + last;
    }
  }

  /** After an accepted save, every execution that reaches the skill carries its new instructions. */
  lemma SavedInstructionsAreUsed(r: Registry, s: Skill, expected: int, root: string, e: Execution)
    returns (a: string, b: string)
    requires Accepted(r, Save(s, expected))
    requires var z := Apply(r, Save(s, expected)); ResolvedAs(z.skills, root, e) && Reach(z.skills, root, s.id)
    ensures e.instructions == a + s.instructions + b
  {
    var z := Apply(r, Save(s, expected));
    SkillIsStored(r, s, expected);
    var order: seq<string> :| ListsAll(z.skills, root, order, e.versions) && e.instructions == Text(z.skills, order);
    assert s.id in Reachable(z.skills, root);
    assert s.id in Names(order);
    a, b := TextHolds(z.skills, order, s.id);
  }
}
