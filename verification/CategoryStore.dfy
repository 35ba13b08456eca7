/** The category and product operations as the store runs them, each one transaction. */
module CategoryStore {
  import opened Wrappers
  import opened Strings
  import opened CategoryModel

  class Store {
    var categories: Categories
    var products: map<Id, Product>

    ghost function View(): Shop
      reads this
    {
      Shop(categories, products)
    }

    constructor ()
      ensures View() == Shop(map[], map[]) && Ok(View())
    {
      categories, products := map[], map[];
      new;
      assert forall x: Id, n: nat :: n > 0 ==> !Climbs(map[], x, n, x);
    }

    /** WITH RECURSIVE: children of what was found so far join until nothing is added. */
    method Subtree(id: Id) returns (found: set<Id>)
      requires id in categories
      ensures forall x :: x in found <==> Under(categories, x, id)
    {
      assert Climbs(categories, id, 0, id);
      found := {id};
      var grown := true;
      while grown
        invariant id in found && found <= categories.Keys
        invariant forall x :: x in found ==> Under(categories, x, id)
        invariant !grown ==> forall x :: x in categories && categories[x].parent in found ==> x in found
        decreases categories.Keys - found, grown
      {
        var children := set x | x in categories && categories[x].parent in found && x !in found;
        grown := children != {};
        forall x | x in children ensures Under(categories, x, id) {
          var n: nat :| Climbs(categories, categories[x].parent, n, id);
          assert Climbs(categories, x, n + 1, id);
        }
        if grown {
          var x :| x in children;
          assert x in categories.Keys - found;
        }
        found := found + children;
      }
      forall x, n | Climbs(categories, x, n, id) ensures x in found {
        ClosedUpwards(categories, found, x, n, id);
      }
    }

    static lemma {:induction false} ClosedUpwards(c: Categories, found: set<Id>, x: Id, n: nat, id: Id)
      requires id in found && Climbs(c, x, n, id)
      requires forall e :: e in c && c[e].parent in found ==> e in found
      ensures x in found
      decreases n
    {
      if n > 0 { ClosedUpwards(c, found, c[x].parent, n - 1, id); }
    }

    method SaveProductCategory(id: Id, name: string, parent: Option<Id>, newId: Id) returns (r: Outcome)
      requires newId != ""
      modifies this`categories
      ensures (View(), r) == SaveCategory(old(View()), id, name, parent, newId)
    {
      var trimmed := Trim(name);
      if trimmed == "" || |trimmed| > 100 { return Refused(Invalid); }
      var up := "";
      if id != "" {
        if id !in categories { return Refused(NotFound); }
        up := categories[id].parent;
      }
      if parent.Some? { up := parent.value; }
      assert up == ParentFor(categories, id, parent);
      if up != "" {
        if up !in categories { return Refused(NotFound); }
        if id != "" {
          var below := Subtree(id);
          if up in below { return Refused(Invalid); }
        }
      }
      var key := if id == "" then newId else id;
      var taken := exists x :: x in categories && x != key && categories[x].name == trimmed;
      if taken { return Refused(Invalid); }
      categories := categories[key := Category(trimmed, up)];
      return Saved(key);
    }

    method DeleteProductCategory(id: Id) returns (r: Outcome)
      modifies this
      ensures (View(), r) == DeleteCategory(old(View()), id)
    {
      var children := set x | x in categories && categories[x].parent == id;
      if children != {} {
        var x :| x in children;
        return Refused(Invalid);
      }
      assert forall x :: x in categories ==> x !in children;
      if id !in categories { return Refused(NotFound); }
      categories := categories - {id};
      products := map p | p in products ::
        if products[p].category == id then products[p].(category := "", version := products[p].version + 1)
          else products[p];
      return Saved(id);
    }

    method SaveProduct(id: Id, i: Input, newId: Id) returns (r: Outcome)
      modifies this`products
      ensures (View(), r) == CategoryModel.SaveProduct(old(View()), id, i, newId)
    {
      if !InputOk(i) { return Refused(Invalid); }
      var key, version := newId, 1;
      if id != "" {
        if id !in products { return Refused(NotFound); }
        if products[id].version != i.version { return Refused(Conflict); }
        key, version := id, products[id].version + 1;
      }
      var category := Trim(i.category);
      if category != "" && category !in categories { return Refused(NotFound); }
      products := products[key :=
        Product(Trim(i.name), Trim(i.model), Trim(i.brand), category, i.specification, version)];
      return Saved(key);
    }

    method DeleteProduct(id: Id, version: int) returns (r: Outcome)
      modifies this`products
      ensures (View(), r) == CategoryModel.DeleteProduct(old(View()), id, version)
    {
      if id !in products { return Refused(NotFound); }
      if products[id].version != version { return Refused(Conflict); }
      products := products - {id};
      return Saved(id);
    }
  }
}
