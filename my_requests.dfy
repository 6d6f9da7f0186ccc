/** The requester's paged, status-filtered list of their own requests: page
    count and page buttons, the page cursor and the filter, the status badge
    style, and the per-row actions. */
module MyDonationRequests {
  import opened Js
  import opened Records
  import opened Text
  import opened Pagination

  const ItemsPerPage: nat := 5

  /** `Math.ceil(count / itemsPerPage)` with this page's five rows; the board of
      active operations computes its own count with six (`FieldOps.TotalPages`). */
  function NumberOfPages(count: nat): (n: nat)
    ensures n * ItemsPerPage >= count
    ensures n > 0 ==> (n - 1) * ItemsPerPage < count
  {
    CeilDiv(count, ItemsPerPage)
  }

  /** The page buttons: page index and its label, for indexes `0 .. numberOfPages - 1`. */
  function PageButtons(count: nat): (b: seq<(nat, string)>)
    ensures |b| == NumberOfPages(count)
    ensures forall i :: 0 <= i < |b| ==> b[i].0 == i && b[i].1 == PageLabel(i)
  {
    var pages := PageIndexes(NumberOfPages(count));
    seq(|pages|, i requires 0 <= i < |pages| => (pages[i], PageLabel(pages[i])))
  }

  /** Each button's label reads as its 1-based page number, and no two labels coincide. */
  lemma PageButtonLabels(count: nat, i: nat, j: nat)
    requires i < j < NumberOfPages(count)
    ensures DecimalValue(PageButtons(count)[i].1) == i + 1
    ensures PageButtons(count)[i].1 != PageButtons(count)[j].1
  {
    PageLabelRoundTrip(i);
    PageLabelsDistinct(i, j);
  }

  /** `getStatusStyle` */
  function StatusStyle(status: string): (s: string)
    ensures status != Pending && status != InProgress && status != Done && status != Canceled ==>
              s == "border-gray-500/50 text-gray-500"
  {
    if status == Pending then "border-yellow-500/50 text-yellow-500 bg-yellow-500/10"
    else if status == InProgress then "border-blue-500/50 text-blue-500 bg-blue-500/10"
    else if status == Done then "border-green-500/50 text-green-500 bg-green-500/10"
    else if status == Canceled then "border-red-500/50 text-red-500 bg-red-500/10"
    else "border-gray-500/50 text-gray-500"
  }

  /** The four statuses get four different styles, none of them the fallback. */
  lemma StatusStylesDistinct(a: string, b: string)
    requires a in {Pending, InProgress, Done, Canceled} && b in {Pending, InProgress, Done, Canceled}
    requires a != b
    ensures StatusStyle(a) != StatusStyle(b)
    ensures StatusStyle(a) != StatusStyle("unknown")
  {
  }

  /** The action buttons of a row. */
  datatype RowAction = MarkDone | MarkCanceled | Edit(target: string) | View(target: string)

  /** Done and Cancel for requests in progress, then the edit and detail links
      that every row carries. */
  function RowActions(r: DonationRequest): (a: seq<RowAction>)
    ensures MarkDone in a <==> r.status == InProgress
    ensures MarkCanceled in a <==> r.status == InProgress
    ensures |a| >= 2 && a[|a| - 2] == Edit("/dashboard/update-donation-request/" + r.id)
    ensures a[|a| - 1] == View("/donation-details/" + r.id)
  {
    (if r.status == InProgress then [MarkDone, MarkCanceled] else [])
    + [Edit("/dashboard/update-donation-request/" + r.id), View("/donation-details/" + r.id)]
  }

  /** The previous-page button. */
  predicate PrevDisabled(currentPage: nat) {
    currentPage == 0
  }

  function PrevPage(currentPage: nat): (p: nat)
    ensures PrevDisabled(currentPage) ==> p == currentPage
    ensures !PrevDisabled(currentPage) ==> p + 1 == currentPage
  {
    if currentPage == 0 then currentPage else currentPage - 1
  }

  /** The next-page button as written: `disabled={currentPage === numberOfPages - 1}`. */
  predicate NextDisabledAsWritten(currentPage: nat, pages: nat) {
    currentPage == pages - 1
  }

  function NextPageAsWritten(currentPage: nat, pages: nat): nat {
    if NextDisabledAsWritten(currentPage, pages) then currentPage else currentPage + 1
  }

  /** With no rows there are no pages, yet the next button is enabled and moves
      the cursor to a page that does not exist; it never becomes disabled again. */
  lemma NextAsWrittenLeavesEmptyList()
    ensures NumberOfPages(0) == 0
    ensures !NextDisabledAsWritten(0, NumberOfPages(0))
    ensures NextPageAsWritten(0, NumberOfPages(0)) == 1
    ensures forall p: nat :: !NextDisabledAsWritten(p, NumberOfPages(0))
  {
  }

  /** A cursor left past the last page, as a refetch after a status change can
      leave it: the button as written stays enabled there and every press moves
      the cursor one page further out. */
  lemma NextAsWrittenPastLastPage(currentPage: nat, pages: nat)
    requires currentPage >= pages
    ensures !NextDisabledAsWritten(currentPage, pages)
    ensures NextPageAsWritten(currentPage, pages) == currentPage + 1
    ensures NextPageAsWritten(currentPage, pages) >= pages
  {
  }

  /** Six requests under a status filter fill two pages; from the second page,
      marking its only row Done leaves five, one page, and the cursor on page 1,
      where Next as written stays enabled and leads to page 2. */
  lemma StaleCursorAfterRefetch()
    ensures NumberOfPages(6) == 2 && 1 < NumberOfPages(6)
    ensures NumberOfPages(5) == 1 && 1 >= NumberOfPages(5)
    ensures NextPageAsWritten(1, NumberOfPages(5)) == 2
    ensures NextPage(1, NumberOfPages(5)) == 1
  {
    assert NumberOfPages(6) == 2;
    assert NumberOfPages(5) == 1;
  }

  /** The next-page button disabled on the last page, or when there is none. */
  predicate NextDisabled(currentPage: nat, pages: nat) {
    currentPage + 1 >= pages
  }

  function NextPage(currentPage: nat, pages: nat): (p: nat)
    ensures NextDisabled(currentPage, pages) ==> p == currentPage
    ensures !NextDisabled(currentPage, pages) ==> p == currentPage + 1 && p < pages
    ensures currentPage >= pages ==> p == currentPage
  {
    if NextDisabled(currentPage, pages) then currentPage else currentPage + 1
  }

  /** On a list with at least one page, from any page that exists, the
      corrected button behaves exactly as the one written. */
  lemma NextAgreesOnExistingPages(currentPage: nat, pages: nat)
    requires currentPage < pages
    ensures NextDisabled(currentPage, pages) <==> NextDisabledAsWritten(currentPage, pages)
    ensures NextPage(currentPage, pages) == NextPageAsWritten(currentPage, pages)
  {
  }

  /** `k` presses of the next button, starting from `page`. */
  function NextPresses(page: nat, pages: nat, k: nat): nat
    decreases k
  {
    if k == 0 then page else NextPresses(NextPage(page, pages), pages, k - 1)
  }

  /** Pressing next repeatedly from the first page walks through every page in
      turn and stops on the last one. */
  lemma {:induction false} NextWalksAllPages(pages: nat, k: nat, page: nat)
    requires pages > 0 && page < pages
    ensures NextPresses(page, pages, k) == if page + k < pages then page + k else pages - 1
    decreases k
  {
    if k > 0 {
      NextWalksAllPages(pages, k - 1, NextPage(page, pages));
    }
  }

  /** Next then previous returns to the page where it started, unless on the last page. */
  lemma NextThenPrev(currentPage: nat, pages: nat)
    requires currentPage + 1 < pages
    ensures PrevPage(NextPage(currentPage, pages)) == currentPage
  {
  }

  class MyDonationRequestsPage {
    var requests: seq<DonationRequest>
    var count: nat
    var currentPage: nat
    var filterStatus: string

    /** The cursor is on an existing page, or on page 0 of an empty list. */
    ghost predicate Valid()
      reads this
    {
      currentPage == 0 || currentPage < NumberOfPages(count)
    }

    constructor ()
      ensures Valid()
      ensures requests == [] && count == 0 && currentPage == 0 && filterStatus == "all"
    {
      requests, count, currentPage, filterStatus := [], 0, 0, "all";
    }

    /** The filter select's `onChange`: a new filter always starts again at page 0. */
    method FilterChanged(status: string)
      modifies this
      ensures Valid()
      ensures filterStatus == status && currentPage == 0
      ensures requests == old(requests) && count == old(count)
    {
      filterStatus := status;
      currentPage := 0;
    }

    /** A click on the previous-page button. */
    method Previous()
      modifies this
      ensures old(Valid()) ==> Valid()
      ensures currentPage == PrevPage(old(currentPage))
      ensures requests == old(requests) && count == old(count) && filterStatus == old(filterStatus)
    {
      if !PrevDisabled(currentPage) {
        currentPage := currentPage - 1;
      }
    }

    /** A click on the next-page button as written: it is disabled only when
        the cursor is exactly on the last page, so with no pages, or from a
        cursor left past the end, it moves the cursor to a page that does not
        exist. */
    method Next()
      modifies this
      ensures old(Valid()) && (NextDisabledAsWritten(old(currentPage), NumberOfPages(count)) || old(currentPage) + 1 < NumberOfPages(count)) ==>
                Valid()
      ensures currentPage == NextPageAsWritten(old(currentPage), NumberOfPages(count))
      ensures requests == old(requests) && count == old(count) && filterStatus == old(filterStatus)
    {
      if !NextDisabledAsWritten(currentPage, NumberOfPages(count)) {
        currentPage := currentPage + 1;
      }
    }

    /** The next-page button disabled as corrected above: the cursor never
        leaves the existing pages. */
    method NextCorrected()
      modifies this
      ensures old(Valid()) ==> Valid()
      ensures currentPage == NextPage(old(currentPage), NumberOfPages(count))
      ensures requests == old(requests) && count == old(count) && filterStatus == old(filterStatus)
    {
      if !NextDisabled(currentPage, NumberOfPages(count)) {
        currentPage := currentPage + 1;
      }
    }

    /** A click on one of the numbered page buttons. */
    method GoTo(page: nat)
      requires page < NumberOfPages(count)
      modifies this
      ensures Valid()
      ensures currentPage == page
      ensures requests == old(requests) && count == old(count) && filterStatus == old(filterStatus)
    {
      currentPage := page;
    }

    /** The response `{ result, count }` of the list query. The cursor is not
        reset, so when the list shrank it can be left past the last page. */
    method Loaded(result: seq<DonationRequest>, total: nat)
      modifies this
      ensures requests == result && count == total
      ensures Valid() <==> currentPage == 0 || currentPage < NumberOfPages(total)
      ensures currentPage == old(currentPage) && filterStatus == old(filterStatus)
    {
      requests, count := result, total;
    }

    /** `handleStatusUpdate`: the list is fetched again only when the service changed something. */
    method StatusUpdated(modifiedCount: int) returns (refetch: bool)
      ensures refetch <==> modifiedCount > 0
    {
      refetch := modifiedCount > 0;
    }
  }
}
