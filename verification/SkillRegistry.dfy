/** The skill registry of one owner: every edit is checked against the whole graph before it is written. */
module SkillRegistry {
  import opened Wrappers
  import opened Strings
  import opened SkillGraph

  const MAX_ID := 64
  const MAX_DEPS := 12
  const MAX_INSTRUCTIONS := 16000

  predicate Lower(c: char) { 'a' <= c <= 'z' }

  /** A lower-case letter, then up to 63 letters, digits, underscores and hyphens. */
  predicate IsId(s: string) {
    && 1 <= |s| <= MAX_ID && Lower(s[0])
    && forall i :: 1 <= i < |s| ==> Lower(s[i]) || '0' <= s[i] <= '9' || s[i] == '_' || s[i] == '-'
  }

  predicate TextsOk(s: Skill) {
    && IsId(Trim(s.id)) && 1 <= |Trim(s.name)| <= 100 && |Trim(s.description)| <= 400
    && 1 <= |Trim(s.instructions)| <= MAX_INSTRUCTIONS
    && (s.kind == CHAT || s.kind == MAIL_SUMMARY)
  }

  function TrimAll(names: seq<string>): seq<string> {
    seq(|names|, i requires 0 <= i < |names| => Trim(names[i]))
  }

  /** At most twelve different well-formed names, none of them the skill itself. */
  predicate DepsOk(id: string, deps: seq<string>) {
    && |deps| <= MAX_DEPS
    && (forall i :: 0 <= i < |deps| ==> deps[i] != id && IsId(deps[i]))
    && forall i, j :: 0 <= i < j < |deps| ==> deps[i] != deps[j]
  }

  function Trimmed(s: Skill): Skill {
    s.(id := Trim(s.id), name := Trim(s.name), description := Trim(s.description),
       instructions := Trim(s.instructions), deps := TrimAll(s.deps))
  }

  /** normalizeAISkill; names and descriptions are counted in characters. */
  method Normalize(s: Skill) returns (r: Option<Skill>)
    ensures r.Some? <==> TextsOk(s) && DepsOk(Trim(s.id), TrimAll(s.deps))
    ensures r.Some? ==> r.value == Trimmed(s)
  {
    if !TextsOk(s) || |s.deps| > MAX_DEPS { return None; }
    var id := Trim(s.id);
    ghost var all := TrimAll(s.deps);
    var deps: seq<string> := [];
    while |deps| < |s.deps|
      invariant |deps| <= |s.deps| && deps == all[..|deps|]
      invariant forall i :: 0 <= i < |deps| ==> deps[i] != id && IsId(deps[i])
      invariant forall i, j :: 0 <= i < j < |deps| ==> deps[i] != deps[j]
    {
      var dep := Trim(s.deps[|deps|]);
      assert dep == all[|deps|];
      if dep == id || !IsId(dep) || dep in deps {
        if dep in deps {
          ghost var i :| 0 <= i < |deps| && deps[i] == dep;
          assert all[i] == all[|deps|];
        }
        return None;
      }
      deps := deps + [dep];
    }
    assert deps == all;
    return Some(s.(id := id, name := Trim(s.name), description := Trim(s.description),
                   instructions := Trim(s.instructions), deps := deps));
  }

  /** ai_skills and the selected summary skill, of one owner. */
  datatype Registry = Registry(skills: Graph, active: string)

  datatype Outcome = Saved | Refused(error: Error)

  predicate WellKeyed(g: Graph) { forall x :: x in g ==> g[x].id == x }

  ghost predicate Valid(r: Registry) { WellKeyed(r.skills) && ValidGraph(r.skills, r.active) }

  datatype Edit =
    | Save(skill: Skill, expected: int)          // normalized, its id filled in
    | Delete(id: string, expected: int)
    | Select(id: string, expected: int)

  /** The checks made before the graph is looked at. */
  function Precheck(r: Registry, e: Edit): Option<Error> {
    match e
    case Save(s, expected) =>
      if expected == 0 then if s.id in r.skills then Some(Conflict) else None
      else if s.id !in r.skills then Some(NotFound)
      else if r.skills[s.id].revision != expected then Some(Conflict)
      else if r.skills[s.id].kind != s.kind then Some(Invalid)
      else None
    case Delete(id, expected) =>
      if id !in r.skills then Some(NotFound)
      else if expected > 0 && r.skills[id].revision != expected then Some(Conflict)
      else None
    case Select(id, expected) => if id !in r.skills then Some(NotFound) else None
  }

  /** The registry an edit asks for. */
  function Edited(r: Registry, e: Edit): Registry {
    match e
    case Save(s, expected) =>
      var row := if s.id in r.skills
        then s.(builtIn := r.skills[s.id].builtIn, revision := r.skills[s.id].revision + 1)
        else s.(builtIn := false, revision := 1);
      r.(skills := r.skills[s.id := row])
    case Delete(id, _) => r.(skills := r.skills - {id})
    case Select(id, _) => r.(active := id)
  }

  /** A selection only resolves the chosen skill, and compares the revision afterwards. */
  ghost predicate Accepted(r: Registry, e: Edit) {
    && Precheck(r, e).None?
    && match e
       case Select(id, expected) =>
         Resolvable(r.skills, MAIL_SUMMARY, id) && (expected > 0 ==> r.skills[id].revision == expected)
       case _ => ValidGraph(Edited(r, e).skills, r.active)
  }

  /** Why an edit is refused: by the first check, else for the graph it would leave, else for its revision. */
  ghost predicate RefusedFor(r: Registry, e: Edit, error: Error) {
    if Precheck(r, e).Some? then error == Precheck(r, e).value
    else if !e.Select? then GraphError(Edited(r, e).skills, r.active, error)
    else if !Resolvable(r.skills, MAIL_SUMMARY, e.id) then error == Invalid
    else error == Conflict
  }

  ghost function Apply(r: Registry, e: Edit): Registry {
    if Accepted(r, e) then Edited(r, e) else r
  }

  ghost function RunEdits(r: Registry, edits: seq<Edit>): Registry
    decreases |edits|
  {
    if edits == [] then r else RunEdits(Apply(r, edits[0]), edits[1..])
  }

  lemma EditKeepsValid(r: Registry, e: Edit)
    requires Valid(r)
    ensures Valid(Apply(r, e))
  {
    if Accepted(r, e) && e.Select? {
      ReachSelf(r.skills, e.id);
      assert Good(r.skills, MAIL_SUMMARY, e.id);
    }
  }

  /** Every edit keeps the registry valid, so the selected summary skill always resolves. */
  lemma {:induction false} RegistryStaysValid(r: Registry, edits: seq<Edit>)
    requires Valid(r)
    ensures var z := RunEdits(r, edits); Valid(z) && Resolvable(z.skills, MAIL_SUMMARY, z.active)
    decreases |edits|
  {
    if edits == [] {
      ActiveResolves(r.skills, r.active);
    } else {
      EditKeepsValid(r, edits[0]);
      RegistryStaysValid(Apply(r, edits[0]), edits[1..]);
    }
  }

  predicate Deletes(e: Edit, id: string) { e.Delete? && e.id == id }

  /** Until it is deleted, a skill's revision never falls. */
  lemma {:induction false} RevisionsGrow(r: Registry, edits: seq<Edit>, id: string)
    requires id in r.skills && forall e :: e in edits ==> !Deletes(e, id)
    ensures var z := RunEdits(r, edits); id in z.skills && z.skills[id].revision >= r.skills[id].revision
    decreases |edits|
  {
    if edits != [] {
      assert edits[0] in edits;
      RevisionsGrow(Apply(r, edits[0]), edits[1..], id);
    }
  }

  /**
   No update is lost: after a save, no edit that was based on the same revision is
   accepted any more, whatever edits come in between, unless one of them deletes the skill.
   */
  lemma StaleEditIsRefused(r: Registry, save: Edit, edits: seq<Edit>, stale: Edit)
    requires save.Save? && Accepted(r, save) && save.expected >= 0
    requires forall e :: e in edits ==> !Deletes(e, save.skill.id)
    requires (stale.Save? && stale.skill.id == save.skill.id) || (Deletes(stale, save.skill.id) && stale.expected > 0)
    requires stale.expected == save.expected
    ensures var z := RunEdits(Apply(r, save), edits); !Accepted(z, stale) && Apply(z, stale) == z
  {
    RevisionsGrow(Apply(r, save), edits, save.skill.id);
  }

  /** Every enabled skill of a valid registry resolves. */
  lemma EnabledResolves(r: Registry, id: string)
    requires Valid(r) && id in r.skills && r.skills[id].enabled
    ensures Resolvable(r.skills, r.skills[id].kind, id)
  {
    OnlyLengthCanFail(r.skills, r.skills[id].kind, id);
    assert ShortEnough(r.skills, id);
  }

  class Store {
    var skills: Graph
    var active: string

    ghost function View(): Registry
      reads this
    {
      Registry(skills, active)
    }

    constructor (skills: Graph, active: string)
      requires Valid(Registry(skills, active))
      ensures View() == Registry(skills, active)
    {
      this.skills, this.active := skills, active;
    }

    method SaveAISkill(skill: Skill, freshId: string, expected: int) returns (r: Outcome)
      modifies this`skills
      ensures var s := if skill.id == "" then skill.(id := freshId) else skill;
        var save := Save(Trimmed(s), expected);
        if TextsOk(s) && DepsOk(Trim(s.id), TrimAll(s.deps)) then
          && View() == Apply(old(View()), save) && (r.Saved? <==> Accepted(old(View()), save))
          && (r.Refused? ==> RefusedFor(old(View()), save, r.error))
        else View() == old(View()) && r == Refused(Invalid)
    {
      var n := Normalize(if skill.id == "" then skill.(id := freshId) else skill);
      if n.None? { return Refused(Invalid); }
      r := SaveNormalized(n.value, expected);
    }

    method SaveNormalized(skill: Skill, expected: int) returns (r: Outcome)
      modifies this`skills
      ensures View() == Apply(old(View()), Save(skill, expected))
      ensures r.Saved? <==> Accepted(old(View()), Save(skill, expected))
      ensures r.Refused? ==> RefusedFor(old(View()), Save(skill, expected), r.error)
    {
      var row := skill;
      if expected == 0 {
        if skill.id in skills { return Refused(Conflict); }
        row := row.(builtIn := false, revision := 1);
      } else {
        if skill.id !in skills { return Refused(NotFound); }
        var existing := skills[skill.id];
        if existing.revision != expected { return Refused(Conflict); }
        if existing.kind != skill.kind { return Refused(Invalid); }
        row := row.(builtIn := existing.builtIn, revision := existing.revision + 1);
      }
      var next := skills[skill.id := row];
      var fault := Validate(next, active);
      if fault.Some? { return Refused(fault.value); }
      skills := next;
      return Saved;
    }

    method DeleteAISkill(id: string, expected: int) returns (r: Outcome)
      modifies this`skills
      ensures View() == Apply(old(View()), Delete(id, expected))
      ensures r.Saved? <==> Accepted(old(View()), Delete(id, expected))
      ensures r.Refused? ==> RefusedFor(old(View()), Delete(id, expected), r.error)
    {
      if id !in skills { return Refused(NotFound); }
      if expected > 0 && skills[id].revision != expected { return Refused(Conflict); }
      var next := skills - {id};
      var fault := Validate(next, active);
      if fault.Some? { return Refused(fault.value); }
      skills := next;
      return Saved;
    }

    method SetMailSummarySkill(id: string, expected: int) returns (r: Outcome)
      modifies this`active
      ensures View() == Apply(old(View()), Select(id, expected))
      ensures r.Saved? <==> Accepted(old(View()), Select(id, expected))
      ensures r.Refused? ==> RefusedFor(old(View()), Select(id, expected), r.error)
    {
      var found := Resolve(skills, id, MAIL_SUMMARY);
      if found.Err? { return Refused(found.error); }
      if expected > 0 && found.execution.revision != expected { return Refused(Conflict); }
      active := id;
      return Saved;
    }

    /** Never refused while the registry is valid. */
    method ResolveMailSummarySkill() returns (r: Resolved)
      requires Valid(View())
      ensures r.Ok? && ResolvedAs(skills, active, r.execution)
    {
      ActiveResolves(skills, active);
      r := Resolve(skills, active, MAIL_SUMMARY);
    }
  }
}
