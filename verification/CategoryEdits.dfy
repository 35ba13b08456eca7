/** When an edit of categories and products is accepted, and exactly what it stores. */
module CategoryEdits {
  import opened Wrappers
  import opened Strings
  import opened CategoryModel

  /** The parent an edit asks for; left out, a category keeps its parent and a new one is at the top. */
  function WantedParent(s: Shop, id: Id, parent: Option<Id>): Id {
    match parent
    case Some(p) => p
    case None => if id in s.categories then s.categories[id].parent else ""
  }

  /**
   A category is saved exactly if its name is short enough and no other category's, and its parent is
   there and not in its own subtree. It then has that name and parent; everything else stays.
   */
  lemma CategoryIsStored(s: Shop, id: Id, name: string, parent: Option<Id>, newId: Id)
    requires Ok(s) && Enabled(s, CategorySaved(id, name, parent, newId))
    ensures var (z, o) := SaveCategory(s, id, name, parent, newId);
      var c := s.categories;
      var p := WantedParent(s, id, parent);
      && (o.Saved? <==>
            && 1 <= |Trim(name)| <= 100 && (forall x :: x in c && x != id ==> c[x].name != Trim(name))
            && (id == "" || (id in c && !Under(c, p, id))) && (p == "" || p in c))
      && (o.Refused? ==> z == s)
      && (o.Saved? ==>
            o.id == (if id == "" then newId else id) && z == s.(categories := c[o.id := Category(Trim(name), p)]))
  {
    if id != "" { NothingUnderTop(s.categories, id); }
  }

  /** A category goes exactly if it has no children; its products stay, without a category and one version on. */
  lemma CategoryIsDeleted(s: Shop, id: Id)
    ensures var (z, o) := DeleteCategory(s, id);
      && (o.Saved? <==> id in s.categories && forall x :: x in s.categories ==> s.categories[x].parent != id)
      && (o.Refused? ==> z == s)
      && (o.Saved? ==>
            && z.categories == s.categories - {id} && z.products.Keys == s.products.Keys
            && forall p :: p in s.products ==>
                 var old_ := s.products[p];
                 z.products[p] == if old_.category != id then old_
                   else Product(old_.name, old_.model, old_.brand, "", old_.specification, old_.version + 1))
  {}

  /**
   A product is saved exactly if its texts are short enough, its category is there, and an edit was
   based on the stored version. It then holds the given texts under the next version.
   */
  lemma ProductIsStored(s: Shop, id: Id, i: Input, newId: Id)
    ensures var (z, o) := SaveProduct(s, id, i, newId);
      && (o.Saved? <==>
            && 1 <= |Trim(i.name)| <= 200 && |Trim(i.model)| <= 160 && |Trim(i.brand)| <= 100
            && |i.specification| <= 100_000 && (Trim(i.category) == "" || Trim(i.category) in s.categories)
            && (id == "" || (id in s.products && s.products[id].version == i.version)))
      && (o.Refused? ==> z == s)
      && (o.Saved? ==>
            && o.id == (if id == "" then newId else id)
            && z == s.(products := s.products[o.id :=
                 Product(Trim(i.name), Trim(i.model), Trim(i.brand), Trim(i.category), i.specification,
                         if id == "" then 1 else s.products[id].version + 1)]))
  {}

  /** A product is deleted exactly under its version; a deletion takes nothing else. */
  lemma ProductIsDeleted(s: Shop, id: Id, version: int)
    ensures var (z, o) := DeleteProduct(s, id, version);
      && (o.Saved? <==> id in s.products && s.products[id].version == version)
      && z == if o.Saved? then s.(products := s.products - {id}) else s
  {}
}
