/** The `Pagination` component: nothing for a single page, otherwise a
    Previous button, one numbered button per page with the current one
    highlighted, and a Next button. Each control is described by the page
    it requests through `onPageChange` and whether it is disabled. */
module Pagination {
  import opened Common

  datatype PageButton = PageButton(page: int, highlighted: bool)

  datatype PaginationView = PaginationView(
    previousTarget: int, previousDisabled: bool,
    buttons: seq<PageButton>,
    nextTarget: int, nextDisabled: bool)

  /** `Array.from({ length: totalPages }, (_, i) => i + 1)`, each button
      highlighted when it is the current page. */
  function Buttons(currentPage: int, totalPages: nat): (r: seq<PageButton>)
    ensures |r| == totalPages
  {
    seq(totalPages, i => PageButton(i + 1, currentPage == i + 1))
  }

  function Render(currentPage: int, totalPages: int): (r: Option<PaginationView>)
    ensures r.None? <==> totalPages <= 1
  {
    if totalPages <= 1 then None
    else Some(PaginationView(currentPage - 1, currentPage == 1,
                             Buttons(currentPage, totalPages),
                             currentPage + 1, currentPage == totalPages))
  }

  /** The number of highlighted buttons. */
  function Highlighted(bs: seq<PageButton>): nat {
    if bs == [] then 0
    else Highlighted(bs[..|bs| - 1]) + (if bs[|bs| - 1].highlighted then 1 else 0)
  }

  /** The numbered buttons are 1..totalPages in ascending order, each
      requesting its own page and highlighted exactly when it is the
      current page; Previous and Next request the neighbouring
      pages and are disabled exactly on the first and the last page. */
  lemma RenderShape(currentPage: int, totalPages: int)
    requires totalPages > 1
    ensures var v := Render(currentPage, totalPages).value;
            |v.buttons| == totalPages
            && (forall i :: 0 <= i < |v.buttons| ==> v.buttons[i].page == i + 1)
            && (forall i, j :: 0 <= i < j < |v.buttons| ==> v.buttons[i].page < v.buttons[j].page)
            && (forall i :: 0 <= i < |v.buttons| ==> (v.buttons[i].highlighted <==> currentPage == i + 1))
            && v.previousTarget == currentPage - 1 && (v.previousDisabled <==> currentPage == 1)
            && v.nextTarget == currentPage + 1 && (v.nextDisabled <==> currentPage == totalPages)
  {
  }

  /** When the current page is in range, every control that can be clicked
      requests a page between 1 and totalPages. */
  lemma EnabledTargetsInRange(currentPage: int, totalPages: int)
    requires 1 <= currentPage <= totalPages && totalPages > 1
    ensures var v := Render(currentPage, totalPages).value;
            (!v.previousDisabled ==> 1 <= v.previousTarget <= totalPages)
            && (!v.nextDisabled ==> 1 <= v.nextTarget <= totalPages)
            && (forall b :: b in v.buttons ==> 1 <= b.page <= totalPages)
  {
  }

  lemma {:induction false} HighlightedButtons(currentPage: int, n: nat)
    ensures Highlighted(Buttons(currentPage, n)) == if 1 <= currentPage <= n then 1 else 0
  {
    if n > 0 {
      assert Buttons(currentPage, n)[..n - 1] == Buttons(currentPage, n - 1);
      HighlightedButtons(currentPage, n - 1);
    }
  }

  /** Exactly one numbered button is highlighted when the current page is in
      range, and none otherwise. */
  lemma ExactlyOneHighlighted(currentPage: int, totalPages: int)
    requires totalPages > 1
    ensures Highlighted(Render(currentPage, totalPages).value.buttons) ==
            if 1 <= currentPage <= totalPages then 1 else 0
  {
    HighlightedButtons(currentPage, totalPages);
  }
}
