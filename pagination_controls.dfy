/** The pagination bar: one link per page, the current page marked active, each link
    pointing at the product list, the search results or the admin product list. */
module PaginationControls {
  import opened Wrappers
  import opened Decimal

  /** One rendered page link: its React key, its visible caption, its target and whether it is
      the active one. */
  datatype PageItem = PageItem(key: nat, caption: nat, to: string, active: bool)

  /** The `keyword` prop after its default: absent means ''. */
  function KeywordOrDefault(keyword: Option<string>): (k: string)
    ensures keyword.Some? ==> k == keyword.value
    ensures keyword.None? ==> k == ""
  {
    if keyword.Some? then keyword.value else ""
  }

  /** The link target of page `n`: always an absolute path. */
  function PageLink(n: nat, isAdmin: bool, keyword: string): (path: string)
    ensures |path| > 0 && path[0] == '/'
  {
    if !isAdmin then
      if keyword != "" then "/search/" + keyword + "/currentPage/" + NatToString(n)
      else "/currentPage/" + NatToString(n)
    else "/admin/productlist/" + NatToString(n)
  }

  /** The link for page `n` of a listing. */
  function Item(n: nat, page: int, isAdmin: bool, keyword: string): (item: PageItem) {
    PageItem(n, n, PageLink(n, isAdmin, keyword), n == page)
  }

  /** The component's output: nothing (`None`) unless there is more than one page, and
      otherwise one item per page, captioned 1, 2, ... in order, the one equal to `page`
      active. */
  function PageItems(pages: int, page: int, isAdmin: bool, keyword: Option<string>): (r: Option<seq<PageItem>>)
    ensures r.None? <==> pages <= 1
    ensures r.Some? ==> |r.value| == pages
    ensures r.Some? ==> forall i :: 0 <= i < |r.value| ==>
      r.value[i].caption == i + 1 && r.value[i].key == i + 1 && (r.value[i].active <==> i + 1 == page)
  {
    if pages <= 1 then None
    else
      var kw := KeywordOrDefault(keyword);
      Some(seq(pages, i requires 0 <= i => Item(i + 1, page, isAdmin, kw)))
  }

  /** How many of the items are active. */
  function ActiveCount(items: seq<PageItem>): (count: nat) {
    if items == [] then 0 else ActiveCount(items[..|items| - 1]) + (if items[|items| - 1].active then 1 else 0)
  }

  /** Among the first `m` page items exactly one is active when the current page is one of
      them, and none otherwise. */
  lemma {:induction false} ActiveCountOfFirst(m: nat, page: int, isAdmin: bool, keyword: string)
    ensures ActiveCount(seq(m, i requires 0 <= i => Item(i + 1, page, isAdmin, keyword)))
      == if 1 <= page <= m then 1 else 0
  {
    var items := seq(m, i requires 0 <= i => Item(i + 1, page, isAdmin, keyword));
    if m > 0 {
      assert items[..m - 1] == seq(m - 1, i requires 0 <= i => Item(i + 1, page, isAdmin, keyword));
      ActiveCountOfFirst(m - 1, page, isAdmin, keyword);
      assert items[m - 1].active <==> page == m;
    }
  }

  /** Exactly one item is active if and only if the current page is between 1 and the number
      of pages; otherwise none is. */
  lemma ExactlyOneActive(pages: int, page: int, isAdmin: bool, keyword: Option<string>)
    requires pages > 1
    ensures ActiveCount(PageItems(pages, page, isAdmin, keyword).value) == 1 <==> 1 <= page <= pages
    ensures ActiveCount(PageItems(pages, page, isAdmin, keyword).value) <= 1
  {
    ActiveCountOfFirst(pages, page, isAdmin, KeywordOrDefault(keyword));
  }

  /** An admin's links go to the admin product list, whatever the keyword. */
  lemma AdminLinks(pages: int, page: int, keyword: Option<string>, i: int)
    requires pages > 1 && 0 <= i < pages
    ensures PageItems(pages, page, true, keyword).value[i].to == "/admin/productlist/" + NatToString(i + 1)
    ensures PageItems(pages, page, true, keyword) == PageItems(pages, page, true, None)
  {
    var a, b := PageItems(pages, page, true, keyword).value, PageItems(pages, page, true, None).value;
    assert forall k :: 0 <= k < |a| ==> a[k] == b[k];
    assert a == b;
  }

  /** A shopper's links with a non-empty keyword go to the search results for that keyword. */
  lemma SearchLinks(pages: int, page: int, keyword: string, i: int)
    requires pages > 1 && 0 <= i < pages && keyword != ""
    ensures PageItems(pages, page, false, Some(keyword)).value[i].to
      == "/search/" + keyword + "/currentPage/" + NatToString(i + 1)
  {
  }

  /** A shopper's links without a keyword, or with the empty one, go to the plain listing. */
  lemma PlainLinks(pages: int, page: int, keyword: Option<string>, i: int)
    requires pages > 1 && 0 <= i < pages && (keyword.None? || keyword.value == "")
    ensures PageItems(pages, page, false, keyword).value[i].to == "/currentPage/" + NatToString(i + 1)
  {
  }

  /** The text a link puts before its page number. */
  function LinkPrefix(isAdmin: bool, keyword: string): (prefix: string) {
    if !isAdmin then
      if keyword != "" then "/search/" + keyword + "/currentPage/" else "/currentPage/"
    else "/admin/productlist/"
  }

  /** Every link is its listing's prefix followed by the page number, and the number reads
      back as the page. */
  lemma LinkEndsWithPageNumber(n: nat, isAdmin: bool, keyword: string)
    ensures PageLink(n, isAdmin, keyword) == LinkPrefix(isAdmin, keyword) + NatToString(n)
    ensures StringToNat(PageLink(n, isAdmin, keyword)[|LinkPrefix(isAdmin, keyword)|..]) == n
  {
    StringToNatOfNatToString(n);
    assert PageLink(n, isAdmin, keyword)[|LinkPrefix(isAdmin, keyword)|..] == NatToString(n);
  }

  /** Different pages of one listing never share a link. */
  lemma LinksDistinct(m: nat, n: nat, isAdmin: bool, keyword: string)
    requires m != n
    ensures PageLink(m, isAdmin, keyword) != PageLink(n, isAdmin, keyword)
  {
    LinkEndsWithPageNumber(m, isAdmin, keyword);
    LinkEndsWithPageNumber(n, isAdmin, keyword);
  }

  /** Three pages, page 2 current, no keyword. */
  lemma ThreePages()
    ensures PageItems(3, 2, false, None) == Some([
      PageItem(1, 1, "/currentPage/1", false),
      PageItem(2, 2, "/currentPage/2", true),
      PageItem(3, 3, "/currentPage/3", false)])
  {
    assert NatToString(1) == "1" && NatToString(2) == "2" && NatToString(3) == "3";
    var items := PageItems(3, 2, false, None).value;
    assert items[0] == PageItem(1, 1, "/currentPage/1", false);
    assert items[1] == PageItem(2, 2, "/currentPage/2", true);
    assert items[2] == PageItem(3, 3, "/currentPage/3", false);
    assert items == [items[0], items[1], items[2]];
  }
}
