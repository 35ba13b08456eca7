/** The product category forest of one owner, and the products filed in it. */
module CategoryModel {
  import opened Wrappers
  import opened Strings

  type Id = string

  datatype Category = Category(name: string, parent: Id)
  type Categories = map<Id, Category>

  datatype Product = Product(name: string, model: string, brand: string, category: Id, specification: string,
    version: int)
  datatype Shop = Shop(categories: Categories, products: map<Id, Product>)

  datatype Error = NotFound | Conflict | Invalid
  datatype Outcome = Saved(id: Id) | Refused(error: Error)

  // -------------------------------------------------------------------- forest

  /** n steps up from x lead to y. */
  predicate Climbs(c: Categories, x: Id, n: nat, y: Id)
    decreases n
  {
    if n == 0 then x == y else x in c && Climbs(c, c[x].parent, n - 1, y)
  }

  /** x is y or one of its descendants. */
  ghost predicate Under(c: Categories, x: Id, y: Id) {
    exists n :: Climbs(c, x, n, y)
  }

  ghost predicate Acyclic(c: Categories) {
    forall x, n :: n > 0 ==> !Climbs(c, x, n, x)
  }

  predicate ParentsPresent(c: Categories) {
    "" !in c && forall x :: x in c ==> c[x].parent == "" || c[x].parent in c
  }

  predicate NamesUnique(c: Categories) {
    forall x, y :: x in c && y in c && c[x].name == c[y].name ==> x == y
  }

  ghost predicate Forest(c: Categories) {
    Acyclic(c) && ParentsPresent(c) && NamesUnique(c)
  }

  ghost predicate Ok(s: Shop) {
    && Forest(s.categories)
    && forall p :: p in s.products ==> s.products[p].category == "" || s.products[p].category in s.categories
  }

  lemma {:induction false} ClimbsOn(c: Categories, x: Id, n: nat, y: Id, m: nat, z: Id)
    requires Climbs(c, x, n, y) && Climbs(c, y, m, z)
    ensures Climbs(c, x, n + m, z)
    decreases n
  {
    if n > 0 { ClimbsOn(c, c[x].parent, n - 1, y, m, z); }
  }

  /** A climb after one row changed either never left the old rows, or passes through the changed row. */
  lemma {:induction false} ClimbSplits(c: Categories, d: Categories, id: Id, x: Id, n: nat, y: Id)
    returns (k: Option<nat>)
    requires forall e :: e != id ==> (e in c <==> e in d) && (e in c ==> c[e] == d[e])
    requires Climbs(d, x, n, y)
    ensures k.None? ==> Climbs(c, x, n, y)
    ensures k.Some? ==> k.value < n && Climbs(d, x, k.value, id) && Climbs(d, id, n - k.value, y)
    decreases n
  {
    if n == 0 {
      k := None;
    } else if x == id {
      k := Some(0);
    } else {
      k := ClimbSplits(c, d, id, d[x].parent, n - 1, y);
      if k.Some? { k := Some(k.value + 1); }
    }
  }

  /** A way up to the changed row exists before the change exactly when it exists after it. */
  lemma {:induction false} ClimbSurvives(c: Categories, d: Categories, id: Id, x: Id, n: nat) returns (k: nat)
    requires forall e :: e != id ==> (e in c <==> e in d) && (e in c ==> c[e] == d[e])
    requires Climbs(c, x, n, id)
    ensures k <= n && Climbs(d, x, k, id)
    decreases n
  {
    if x == id {
      k := 0;
    } else {
      k := ClimbSurvives(c, d, id, c[x].parent, n - 1);
      k := k + 1;
    }
  }

  lemma {:induction false} NoCycleThrough(c: Categories, d: Categories, id: Id, n: nat)
    requires forall e :: e != id ==> (e in c <==> e in d) && (e in c ==> c[e] == d[e])
    requires id in d && !Under(c, d[id].parent, id) && n > 0
    ensures !Climbs(d, id, n, id)
    decreases n
  {
    if Climbs(d, id, n, id) {
      var k := ClimbSplits(c, d, id, d[id].parent, n - 1, id);
      if k.Some? { NoCycleThrough(c, d, id, k.value + 1); }
    }
  }

  /** Moving a category keeps the tree acyclic exactly when its new parent is not below it. */
  lemma MoveIsSafe(c: Categories, id: Id, row: Category)
    requires Acyclic(c)
    ensures Acyclic(c[id := row]) <==> !Under(c, row.parent, id)
  {
    var d := c[id := row];
    if Under(c, row.parent, id) {
      var n :| Climbs(c, row.parent, n, id);
      var k := ClimbSurvives(c, d, id, row.parent, n);
      assert Climbs(d, id, k + 1, id);
    } else {
      forall x, n | n > 0 ensures !Climbs(d, x, n, x) {
        if Climbs(d, x, n, x) {
          var k := ClimbSplits(c, d, id, x, n, x);
          if k.Some? {
            ClimbsOn(d, id, n - k.value, x, k.value, id);
            NoCycleThrough(c, d, id, n);
          }
        }
      }
    }
  }

  /** A row nothing points to can go. */
  lemma RemoveIsSafe(c: Categories, id: Id)
    requires Acyclic(c)
    ensures Acyclic(c - {id})
  {
    forall x, n | n > 0 ensures !Climbs(c - {id}, x, n, x) {
      if Climbs(c - {id}, x, n, x) { FewerRowsFewerClimbs(c, id, x, n, x); }
    }
  }

  lemma {:induction false} FewerRowsFewerClimbs(c: Categories, id: Id, x: Id, n: nat, y: Id)
    requires Climbs(c - {id}, x, n, y)
    ensures Climbs(c, x, n, y)
    decreases n
  {
    if n > 0 { FewerRowsFewerClimbs(c, id, c[x].parent, n - 1, y); }
  }

  /** In a forest every category has a finite way up to the top. */
  lemma EveryCategoryHasARoot(c: Categories, x: Id) returns (n: nat)
    requires Forest(c) && x in c
    ensures Climbs(c, x, n, "")
  {
    n := RootFrom(c, x, {});
  }

  lemma {:induction false} RootFrom(c: Categories, x: Id, seen: set<Id>) returns (n: nat)
    requires Acyclic(c) && ParentsPresent(c) && (x == "" || x in c) && seen <= c.Keys && x !in seen
    requires forall s :: s in seen ==> Under(c, s, x)
    ensures Climbs(c, x, n, "")
    decreases c.Keys - seen
  {
    if x == "" {
      n := 0;
    } else {
      var p := c[x].parent;
      forall s | s in seen + {x} ensures Under(c, s, p) && s != p {
        assert Climbs(c, p, 0, p) && Climbs(c, x, 1, p);
        var k: nat := 0;
        if s in seen { k :| Climbs(c, s, k, x); }
        assert Climbs(c, s, k, x);
        ClimbsOn(c, s, k, x, 1, p);
        assert !Climbs(c, s, k + 1, s);
      }
      assert x in c.Keys - seen;
      n := RootFrom(c, p, seen + {x});
      n := n + 1;
    }
  }

  // ---------------------------------------------------------------- operations

  predicate NameTaken(c: Categories, name: string, except: Id) {
    exists x :: x in c && x != except && c[x].name == name
  }

  function ParentFor(c: Categories, id: Id, parent: Option<Id>): Id {
    if parent.Some? then parent.value else if id != "" && id in c then c[id].parent else ""
  }

  /** A new category gets the new id; an omitted parent is kept. */
  ghost function SaveCategory(s: Shop, id: Id, name: string, parent: Option<Id>, newId: Id): (Shop, Outcome) {
    var c := s.categories;
    var n := Trim(name);
    var p := ParentFor(c, id, parent);
    var key := if id == "" then newId else id;
    if n == "" || |n| > 100 then (s, Refused(Invalid))
    else if id != "" && id !in c then (s, Refused(NotFound))
    else if p != "" && p !in c then (s, Refused(NotFound))
    else if p != "" && id != "" && Under(c, p, id) then (s, Refused(Invalid))
    else if NameTaken(c, n, key) then (s, Refused(Invalid))
    else (s.(categories := c[key := Category(n, p)]), Saved(key))
  }

  /** Only a category without children; its products become uncategorized. */
  function DeleteCategory(s: Shop, id: Id): (Shop, Outcome) {
    if exists x :: x in s.categories && s.categories[x].parent == id then (s, Refused(Invalid))
    else if id !in s.categories then (s, Refused(NotFound))
    else (Shop(s.categories - {id},
               map p | p in s.products ::
                 if s.products[p].category == id then
                   s.products[p].(category := "", version := s.products[p].version + 1) else s.products[p]),
          Saved(id))
  }

  datatype Input = Input(name: string, model: string, brand: string, category: Id, specification: string, version: int)

  const MAX_SPECIFICATION := 100_000

  predicate InputOk(i: Input) {
    && 1 <= |Trim(i.name)| <= 200 && |Trim(i.model)| <= 160 && |Trim(i.brand)| <= 100
    && |i.specification| <= MAX_SPECIFICATION
  }

  /** Updates compare the version they were based on; the category must exist. */
  function SaveProduct(s: Shop, id: Id, i: Input, newId: Id): (Shop, Outcome) {
    var key := if id == "" then newId else id;
    var category := Trim(i.category);
    if !InputOk(i) then (s, Refused(Invalid))
    else if id != "" && id !in s.products then (s, Refused(NotFound))
    else if id != "" && s.products[id].version != i.version then (s, Refused(Conflict))
    else if category != "" && category !in s.categories then (s, Refused(NotFound))
    else
      var version := if id == "" then 1 else i.version + 1;
      var p := Product(Trim(i.name), Trim(i.model), Trim(i.brand), category, i.specification, version);
      (s.(products := s.products[key := p]), Saved(key))
  }

  function DeleteProduct(s: Shop, id: Id, version: int): (Shop, Outcome) {
    if id !in s.products then (s, Refused(NotFound))
    else if s.products[id].version != version then (s, Refused(Conflict))
    else (s.(products := s.products - {id}), Saved(id))
  }

  datatype Step =
    | CategorySaved(id: Id, name: string, parent: Option<Id>, newId: Id)
    | CategoryDeleted(id: Id)
    | ProductSaved(id: Id, input: Input, newId: Id)
    | ProductDeleted(id: Id, version: int)

  /** New ids are not empty and not in use. */
  predicate Enabled(s: Shop, step: Step) {
    match step
    case CategorySaved(_, _, _, newId) => newId != "" && newId !in s.categories
    case ProductSaved(_, _, newId) => newId != "" && newId !in s.products
    case _ => true
  }

  ghost function Apply(s: Shop, step: Step): Shop {
    match step
    case CategorySaved(id, name, parent, newId) => SaveCategory(s, id, name, parent, newId).0
    case CategoryDeleted(id) => DeleteCategory(s, id).0
    case ProductSaved(id, input, newId) => SaveProduct(s, id, input, newId).0
    case ProductDeleted(id, version) => DeleteProduct(s, id, version).0
  }

  ghost predicate ValidRun(s: Shop, steps: seq<Step>)
    decreases |steps|
  {
    steps == [] || (Enabled(s, steps[0]) && ValidRun(Apply(s, steps[0]), steps[1..]))
  }

  ghost function RunSteps(s: Shop, steps: seq<Step>): Shop
    decreases |steps|
  {
    if steps == [] then s else RunSteps(Apply(s, steps[0]), steps[1..])
  }

  /** A new id has nothing below it. */
  lemma {:induction false} NothingUnderFresh(c: Categories, x: Id, n: nat, newId: Id)
    requires ParentsPresent(c) && newId !in c && newId != "" && (x == "" || x in c)
    ensures !Climbs(c, x, n, newId)
    decreases n
  {
    if n > 0 && x in c { NothingUnderFresh(c, c[x].parent, n - 1, newId); }
  }

  lemma {:induction false} NothingUnderTop(c: Categories, id: Id)
    requires ParentsPresent(c) && id != ""
    ensures !Under(c, "", id)
  {
    forall n: nat ensures !Climbs(c, "", n, id) {}
  }

  lemma SaveCategoryKeeps(s: Shop, id: Id, name: string, parent: Option<Id>, newId: Id)
    requires Ok(s) && Enabled(s, CategorySaved(id, name, parent, newId))
    ensures Ok(SaveCategory(s, id, name, parent, newId).0)
  {
    var c := s.categories;
    var r := SaveCategory(s, id, name, parent, newId);
    if r.1.Saved? {
      var p := ParentFor(c, id, parent);
      var key := r.1.id;
      if p == "" {
        NothingUnderTop(c, key);
      } else if id == "" {
        forall n: nat ensures !Climbs(c, p, n, newId) { NothingUnderFresh(c, p, n, newId); }
      }
      MoveIsSafe(c, key, Category(Trim(name), p));
      assert NamesUnique(r.0.categories);
    }
  }

  lemma DeleteCategoryKeeps(s: Shop, id: Id)
    requires Ok(s)
    ensures Ok(DeleteCategory(s, id).0)
  {
    RemoveIsSafe(s.categories, id);
  }

  lemma StepKeeps(s: Shop, step: Step)
    requires Ok(s) && Enabled(s, step)
    ensures Ok(Apply(s, step))
  {
    match step
    case CategorySaved(id, name, parent, newId) => SaveCategoryKeeps(s, id, name, parent, newId);
    case CategoryDeleted(id) => DeleteCategoryKeeps(s, id);
    case _ =>
  }

  /**
   Whatever is created, renamed, moved, deleted or filed, the categories stay a forest and
   every product's category exists.
   */
  lemma {:induction false} ForestOverRuns(s: Shop, steps: seq<Step>)
    requires Ok(s) && ValidRun(s, steps)
    ensures Ok(RunSteps(s, steps))
    decreases |steps|
  {
    if steps != [] {
      StepKeeps(s, steps[0]);
      ForestOverRuns(Apply(s, steps[0]), steps[1..]);
    }
  }

  /** An id is not given out again. */
  predicate Keeps(step: Step, id: Id) {
    (step.ProductSaved? ==> step.newId != id) && !(step.ProductDeleted? && step.id == id)
  }

  /** While a product exists its version never falls; emptying its category raises it too. */
  lemma {:induction false} VersionsGrow(s: Shop, steps: seq<Step>, id: Id)
    requires id in s.products && id != "" && forall step :: step in steps ==> Keeps(step, id)
    ensures var z := RunSteps(s, steps); id in z.products && z.products[id].version >= s.products[id].version
    decreases |steps|
  {
    if steps != [] {
      assert steps[0] in steps;
      VersionsGrow(Apply(s, steps[0]), steps[1..], id);
    }
  }

  /** No update is lost: a product edit based on a version that was saved over is refused for good. */
  lemma StaleProductEditIsRefused(s: Shop, id: Id, input: Input, newId: Id, steps: seq<Step>, stale: Input, other: Id)
    requires id != "" && SaveProduct(s, id, input, newId).1.Saved? && stale.version == input.version && InputOk(stale)
    requires forall step :: step in steps ==> Keeps(step, id)
    ensures var z := RunSteps(SaveProduct(s, id, input, newId).0, steps);
      SaveProduct(z, id, stale, other) == (z, Refused(Conflict))
        && DeleteProduct(z, id, stale.version) == (z, Refused(Conflict))
  {
    VersionsGrow(SaveProduct(s, id, input, newId).0, steps, id);
  }

  /** A deleted product stays deleted: every later edit or deletion of it is refused. */
  lemma {:induction false} DeletedProductStaysGone(s: Shop, steps: seq<Step>, id: Id, input: Input, newId: Id,
                                                   version: int)
    requires id != "" && id !in s.products && forall step :: step in steps ==> (step.ProductSaved? ==> step.newId != id)
    ensures var z := RunSteps(s, steps);
      && id !in z.products
      && SaveProduct(z, id, input, newId) == (z, Refused(if InputOk(input) then NotFound else Invalid))
      && DeleteProduct(z, id, version) == (z, Refused(NotFound))
    decreases |steps|
  {
    if steps != [] {
      assert steps[0] in steps;
      DeletedProductStaysGone(Apply(s, steps[0]), steps[1..], id, input, newId, version);
    }
  }

  /** Of two edits or deletions based on the same version at most one is accepted, whichever comes first. */
  lemma DeletionOutdatesEdits(s: Shop, id: Id, version: int, steps: seq<Step>, input: Input, newId: Id)
    requires id != "" && DeleteProduct(s, id, version).1.Saved?
    requires forall step :: step in steps ==> (step.ProductSaved? ==> step.newId != id)
    ensures var z := RunSteps(DeleteProduct(s, id, version).0, steps);
      && SaveProduct(z, id, input, newId).1.Refused? && SaveProduct(z, id, input, newId).0 == z
      && DeleteProduct(z, id, version) == (z, Refused(NotFound))
  {
    DeletedProductStaysGone(DeleteProduct(s, id, version).0, steps, id, input, newId, version);
  }

  /** Deleting a category outdates every edit of its products that was prepared before. */
  lemma CategoryDeletionOutdatesEdits(s: Shop, category: Id, id: Id, steps: seq<Step>, stale: Input, newId: Id)
    requires id != "" && id in s.products && s.products[id].category == category && DeleteCategory(s, category).1.Saved?
    requires stale.version == s.products[id].version && InputOk(stale)
    requires forall step :: step in steps ==> Keeps(step, id)
    ensures SaveProduct(RunSteps(DeleteCategory(s, category).0, steps), id, stale, newId).1 == Refused(Conflict)
  {
    VersionsGrow(DeleteCategory(s, category).0, steps, id);
  }
}
