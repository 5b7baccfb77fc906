/**
 * The mushaf reader (app/iquran/page.tsx): one page image at a time, a page
 * counter that only ever takes values 1 through 604, and the image file named
 * by the page number padded to three digits.
 */
module Mushaf {
  import opened Text

  const LastPage := 604
  const ImageBase := "https://raw.githubusercontent.com/ngaosidn/dbQuranImages/main/"

  predicate InRange(page: int) { 1 <= page <= LastPage }

  /** `handlePageChange`'s guard: the requested page when it exists, otherwise the current one. */
  function Requested(current: int, newPage: int): (r: int)
    ensures r == newPage || r == current
    ensures InRange(current) ==> InRange(r)
  {
    if InRange(newPage) then newPage else current
  }

  /** The page reached by a series of requests, one `handlePageChange` after another. */
  function Replay(current: int, requests: seq<int>): int
    decreases requests
  {
    if requests == [] then current else Replay(Requested(current, requests[0]), requests[1..])
  }

  /** Whatever is requested, a page in range stays in range. */
  lemma {:induction false} ReplayStaysInRange(current: int, requests: seq<int>)
    requires InRange(current)
    ensures InRange(Replay(current, requests))
    decreases requests
  {
    if requests != [] {
      ReplayStaysInRange(Requested(current, requests[0]), requests[1..]);
    }
  }

  /** Next followed by Previous returns to the page it started from. */
  lemma NextThenPrevious(page: int)
    requires 1 <= page < LastPage
    ensures Requested(Requested(page, page + 1), Requested(page, page + 1) - 1) == page
  {
  }

  /** The image file of a page: `String(page).padStart(3, '0') + ".png"`. */
  function PageImageName(page: nat): string {
    PadStart(Digits(page), 3) + ".png"
  }

  function PageImageUrl(page: nat): string {
    ImageBase + PageImageName(page)
  }

  /** For every page of the mushaf the file name is three digits reading back as the page, then ".png". */
  lemma PageImageNameShape(page: nat)
    requires InRange(page)
    ensures |PageImageName(page)| == 7
    ensures AllDigits(PageImageName(page)[..3]) && Value(PageImageName(page)[..3]) == page
    ensures PageImageName(page)[3..] == ".png"
  {
    assert Pow10(3) == 1000;
    FixedWidth(page, 3);
    var d := PadStart(Digits(page), 3);
    assert PageImageName(page)[..3] == d;
  }

  /** Different pages show different images. */
  lemma PageImageNameInjective(p: nat, q: nat)
    requires InRange(p) && InRange(q) && PageImageName(p) == PageImageName(q)
    ensures p == q
  {
    PageImageNameShape(p);
    PageImageNameShape(q);
  }

  /** The image URL identifies the page: different pages load different images. */
  lemma PageImageUrlInjective(p: nat, q: nat)
    requires InRange(p) && InRange(q) && PageImageUrl(p) == PageImageUrl(q)
    ensures p == q
  {
    assert PageImageName(p) == PageImageUrl(p)[|ImageBase|..];
    assert PageImageName(q) == PageImageUrl(q)[|ImageBase|..];
    PageImageNameInjective(p, q);
  }

  /** The reader's state: the page on screen. */
  class Reader {
    var currentPage: int

    ghost predicate Valid()
      reads this
    {
      InRange(currentPage)
    }

    constructor ()
      ensures Valid() && currentPage == 1
    {
      currentPage := 1;
    }

    /** `handlePageChange`: move to the requested page only when it exists. */
    method ChangePage(newPage: int)
      requires Valid()
      modifies this
      ensures Valid()
      ensures InRange(newPage) ==> currentPage == newPage
      ensures !InRange(newPage) ==> currentPage == old(currentPage)
      ensures currentPage == Requested(old(currentPage), newPage)
    {
      if newPage >= 1 && newPage <= 604 {
        currentPage := newPage;
      }
    }

    /** "Sebelumnya". */
    method Previous()
      requires Valid()
      modifies this
      ensures Valid() && currentPage == Requested(old(currentPage), old(currentPage) - 1)
    {
      ChangePage(currentPage - 1);
    }

    /** "Selanjutnya". */
    method Next()
      requires Valid()
      modifies this
      ensures Valid() && currentPage == Requested(old(currentPage), old(currentPage) + 1)
    {
      ChangePage(currentPage + 1);
    }

    /** "Sebelumnya" is disabled exactly when clicking it would leave the page unchanged. */
    function PreviousDisabled(): (disabled: bool)
      reads this
      requires Valid()
      ensures disabled <==> Requested(currentPage, currentPage - 1) == currentPage
    {
      currentPage <= 1
    }

    /** "Selanjutnya" is disabled exactly when clicking it would leave the page unchanged. */
    function NextDisabled(): (disabled: bool)
      reads this
      requires Valid()
      ensures disabled <==> Requested(currentPage, currentPage + 1) == currentPage
    {
      currentPage >= 604
    }

    /** The image shown for the current page. */
    function ImageUrl(): string
      reads this
      requires Valid()
    {
      PageImageUrl(currentPage)
    }
  }
}
