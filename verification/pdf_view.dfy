/**
 * The PDF viewer's navigation state (src/components/pdfview.tsx): the page
 * count, the current page and the zoom, changed by the load callback and the
 * four buttons. Zoom moves in steps of 0.25 within [0.5, 2]; it is kept as a
 * whole number of quarters, so 0.5, 1 and 2 are 2, 4 and 8.
 */
module PdfView {

  const MinZoom: int := 2
  const MaxZoom: int := 8
  const InitialZoom: int := 4

  /** `Math.max(1, p - 1)`: back one page, never below page 1. */
  function PrevPage(p: int): (r: int)
    ensures r >= 1
    ensures p > 1 ==> r == p - 1
    ensures p <= 1 ==> r == 1
  {
    if 1 < p - 1 then p - 1 else 1
  }

  /** `Math.min(numPages, p + 1)`: forward one page, never past the last. */
  function NextPage(p: int, numPages: int): (r: int)
    ensures r <= numPages
    ensures p < numPages ==> r == p + 1
    ensures p >= numPages ==> r == numPages
  {
    if numPages < p + 1 then numPages else p + 1
  }

  /** `Math.min(s + 0.25, 2)` in quarters. */
  function ZoomedIn(q: int): (r: int)
    ensures r <= MaxZoom
    ensures q < MaxZoom ==> r == q + 1
    ensures q >= MaxZoom ==> r == MaxZoom
  {
    if q + 1 < MaxZoom then q + 1 else MaxZoom
  }

  /** `Math.max(s - 0.25, 0.5)` in quarters. */
  function ZoomedOut(q: int): (r: int)
    ensures r >= MinZoom
    ensures q > MinZoom ==> r == q - 1
    ensures q <= MinZoom ==> r == MinZoom
  {
    if q - 1 > MinZoom then q - 1 else MinZoom
  }

  /** The `disabled` conditions of the four buttons. */
  predicate PrevDisabled(p: int) { p <= 1 }
  predicate NextDisabled(p: int, numPages: int) { p >= numPages }
  predicate ZoomOutDisabled(q: int) { q <= MinZoom }
  predicate ZoomInDisabled(q: int) { q >= MaxZoom }

  /** From a page in range, both page buttons keep the page in range. */
  lemma PageStaysInRange(p: int, numPages: int)
    requires 1 <= p <= numPages
    ensures 1 <= PrevPage(p) <= numPages
    ensures 1 <= NextPage(p, numPages) <= numPages
  {
  }

  /** From a zoom in range, both zoom buttons keep it in range. */
  lemma ZoomStaysInRange(q: int)
    requires MinZoom <= q <= MaxZoom
    ensures MinZoom <= ZoomedIn(q) <= MaxZoom
    ensures MinZoom <= ZoomedOut(q) <= MaxZoom
  {
  }

  /** In range, a button is disabled exactly when pressing it would change nothing. */
  lemma DisabledExactlyWhenNoop(p: int, numPages: int, q: int)
    requires 1 <= p <= numPages && MinZoom <= q <= MaxZoom
    ensures PrevDisabled(p) <==> PrevPage(p) == p
    ensures NextDisabled(p, numPages) <==> NextPage(p, numPages) == p
    ensures ZoomInDisabled(q) <==> ZoomedIn(q) == q
    ensures ZoomOutDisabled(q) <==> ZoomedOut(q) == q
  {
  }

  /** The component's three state cells. */
  class Viewer {
    var numPages: int
    var pageNumber: int
    var zoom: int

    ghost predicate Valid()
      reads this
    {
      MinZoom <= zoom <= MaxZoom && numPages >= 0
    }

    /** The current page is one of the document's pages. */
    ghost predicate PageInRange()
      reads this
    {
      1 <= pageNumber <= numPages
    }

    /** `useState(0)`, `useState(1)`, `useState(1)`. */
    constructor ()
      ensures Valid()
      ensures numPages == 0 && pageNumber == 1 && zoom == InitialZoom
    {
      numPages := 0;
      pageNumber := 1;
      zoom := InitialZoom;
    }

    /** onDocumentLoadSuccess: records the page count; page and zoom stay as they are. */
    method OnDocumentLoadSuccess(n: nat)
      requires Valid()
      modifies this
      ensures Valid()
      ensures numPages == n && pageNumber == old(pageNumber) && zoom == old(zoom)
    {
      numPages := n;
    }

    method GoToPrevPage()
      requires Valid()
      modifies this
      ensures Valid()
      ensures pageNumber == PrevPage(old(pageNumber))
      ensures numPages == old(numPages) && zoom == old(zoom)
      ensures old(PageInRange()) ==> PageInRange()
    {
      pageNumber := PrevPage(pageNumber);
    }

    method GoToNextPage()
      requires Valid()
      modifies this
      ensures Valid()
      ensures pageNumber == NextPage(old(pageNumber), numPages)
      ensures numPages == old(numPages) && zoom == old(zoom)
      ensures old(PageInRange()) ==> PageInRange()
    {
      pageNumber := NextPage(pageNumber, numPages);
    }

    method ZoomIn()
      requires Valid()
      modifies this
      ensures Valid()
      ensures zoom == ZoomedIn(old(zoom))
      ensures numPages == old(numPages) && pageNumber == old(pageNumber)
    {
      zoom := ZoomedIn(zoom);
    }

    method ZoomOut()
      requires Valid()
      modifies this
      ensures Valid()
      ensures zoom == ZoomedOut(old(zoom))
      ensures numPages == old(numPages) && pageNumber == old(pageNumber)
    {
      zoom := ZoomedOut(zoom);
    }
  }

}
