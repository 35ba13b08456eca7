/** Reading a product's specification in bounded pages, with a window of its sections. */
module ProductReader {
  import opened Wrappers
  import C = CategoryModel
  import opened Sections

  datatype Page = Page(content: string, offset: nat, total: nat, hasMore: bool, nextOffset: nat,
                       sectionCount: nat, sections: seq<Section>, hasMoreSections: bool)
  datatype Answer = Answer(page: Page) | Refused(error: C.Error)

  /** Why a read is refused, checked in this order. */
  function Refusal(products: map<C.Id, C.Product>, id: C.Id, version: int, offset: int, length: int): Option<C.Error> {
    if offset < 0 || length < 1 || length > 4000 then Some(C.Invalid)
    else if id !in products then Some(C.NotFound)
    else if version != 0 && version != products[id].version then Some(C.Conflict)
    else if offset > |products[id].specification| then Some(C.Invalid)
    else None
  }

  /** The section that holds the offset; the last one at the very end of the text. */
  ghost predicate HoldsOffset(sections: seq<Section>, i: nat, offset: nat) {
    && i < |sections| && sections[i].offset <= offset
    && (i + 1 < |sections| ==> offset < sections[i + 1].offset)
  }

  /** At most twenty consecutive sections, the first of which holds the offset. */
  ghost predicate IsWindow(all: seq<Section>, offset: nat, window: seq<Section>, more: bool) {
    && window != [] && |window| <= WINDOW && HoldsOffset(all, window[0].index, offset)
    && window[0].index + |window| <= |all| && window == all[window[0].index..window[0].index + |window|]
    && more == (window[0].index + |window| < |all|) && (more ==> |window| == WINDOW)
  }

  /** The page is the text from the offset on, with a window of the sections. */
  ghost predicate IsPage(text: string, offset: nat, length: nat, all: seq<Section>, p: Page) {
    var end := if offset + length < |text| then offset + length else |text|;
    && offset <= |text| && p.offset == offset && p.content == text[offset..end] && p.total == |text|
    && p.nextOffset == end && p.hasMore == (end < |text|)
    && p.sectionCount == |all| && IsWindow(all, offset, p.sections, p.hasMoreSections)
  }

  method SelectWindow(sections: seq<Section>, offset: nat) returns (window: seq<Section>, more: bool)
    requires sections != [] && sections[0].offset == 0 && forall i :: 0 <= i < |sections| ==> sections[i].index == i
    ensures IsWindow(sections, offset, window, more)
  {
    var start := 0;
    while start + 1 < |sections| && sections[start + 1].offset <= offset
      invariant 0 <= start < |sections| && sections[start].offset <= offset
    {
      start := start + 1;
    }
    var sectionEnd := if start + WINDOW < |sections| then start + WINDOW else |sections|;
    window, more := sections[start..sectionEnd], sectionEnd < |sections|;
    assert window[0] == sections[start];
  }

  class Store {
    var products: map<C.Id, C.Product>

    constructor (products: map<C.Id, C.Product>)
      ensures this.products == products
    {
      this.products := products;
    }

    method ReadProduct(id: C.Id, version: int, offset: int, length: int) returns (r: Answer)
      ensures var refusal := Refusal(products, id, version, offset, length);
        if refusal.Some? then r == Refused(refusal.value)
        else r.Answer? && exists all: seq<Section> ::
          Partition(all, |products[id].specification|)
            && IsPage(products[id].specification, offset, length, all, r.page)
    {
      if offset < 0 || length < 1 || length > 4000 { return Refused(C.Invalid); }
      if id !in products { return Refused(C.NotFound); }
      if version != 0 && version != products[id].version { return Refused(C.Conflict); }
      var text := products[id].specification;
      if offset > |text| { return Refused(C.Invalid); }
      var end := if offset + length < |text| then offset + length else |text|;
      var sections := SplitProductSections(text);
      var window, more := SelectWindow(sections, offset);
      var page := Page(text[offset..end], offset, |text|, end < |text|, end, |sections|, window, more);
      assert IsPage(text, offset, length, sections, page);
      return Answer(page);
    }

    /** A reader that follows nextOffset from the start gets the whole text. */
    method FollowPages(id: C.Id, version: int, length: int) returns (text: string)
      requires Refusal(products, id, version, 0, length).None?
      ensures text == products[id].specification
    {
      var r := ReadProduct(id, version, 0, length);
      text := r.page.content;
      var whole := products[id].specification;
      while r.page.hasMore
        invariant r.Answer? && r.page.nextOffset <= |whole| && text == whole[..r.page.nextOffset]
        invariant r.page.hasMore == (r.page.nextOffset < |whole|)
        decreases |whole| - r.page.nextOffset
      {
        var next := r.page.nextOffset;
        r := ReadProduct(id, version, next, length);
        assert whole[..next] + whole[next..r.page.nextOffset] == whole[..r.page.nextOffset];
        text := text + r.page.content;
      }
      assert whole[..|whole|] == whole;
    }
  }
}
