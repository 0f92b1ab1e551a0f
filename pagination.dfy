/** The numbered pagination shared, line for line, by the category browser
    and the single-category page: the bounds-checked page change, the fixed
    page count, and the window of at most five page buttons. */
module Pagination {

  /** The page count is capped at 25: "at most 500 movies, 20 per page". */
  const MaxPages: nat := 25
  const AssumedMovieCount: nat := 500
  const MoviesPerPage: nat := 20
  const WindowSize: nat := 5

  function Min(a: int, b: int): int { if a <= b then a else b }
  function Max(a: int, b: int): int { if a >= b then a else b }

  /** `Math.ceil(a / b)` for a positive divisor. */
  function CeilDiv(a: nat, b: nat): (q: nat)
    requires b > 0
    ensures q * b >= a && (q == 0 || (q - 1) * b < a)
  {
    (a + b - 1) / b
  }

  /** `Math.min(25, Math.ceil(500 / 20))`, what a successful load sets. */
  function TotalPagesAfterLoad(): (t: nat)
    ensures t == MaxPages
    ensures t * MoviesPerPage >= AssumedMovieCount
  {
    Min(MaxPages, CeilDiv(AssumedMovieCount, MoviesPerPage))
  }

  /** `handlePageChange` accepts a target only within [1, total]. */
  predicate AcceptsPage(newPage: int, total: int) {
    newPage >= 1 && newPage <= total
  }

  function PageAfterChange(current: int, total: int, newPage: int): (r: int)
    ensures AcceptsPage(newPage, total) ==> r == newPage
    ensures !AcceptsPage(newPage, total) ==> r == current
    ensures 1 <= current <= total ==> 1 <= r <= total
  {
    if AcceptsPage(newPage, total) then newPage else current
  }

  /** Previous is disabled on the first page, Next on the last. */
  predicate PreviousDisabled(current: int) { current == 1 }
  predicate NextDisabled(current: int, total: int) { current == total }

  /** A disabled arrow is exactly an arrow whose page change would be refused. */
  lemma ArrowsDisabledExactlyWhenRefused(current: int, total: int)
    requires 1 <= current <= total
    ensures PreviousDisabled(current) <==> !AcceptsPage(current - 1, total)
    ensures NextDisabled(current, total) <==> !AcceptsPage(current + 1, total)
  {
  }

  // ---------------------------------------------------------------------
  // The page-button window:
  // `[...Array(min(5, total))].map((_, i) => max(1, current - 2) + i)`,
  // with every number above `total` rendered as nothing.
  // ---------------------------------------------------------------------

  function WindowStart(current: int): int {
    Max(1, current - 2)
  }

  function Candidates(start: int, count: nat): (r: seq<int>)
    ensures |r| == count && forall i :: 0 <= i < count ==> r[i] == start + i
  {
    seq(count, i => start + i)
  }

  /** The entries kept after the `pageNum > totalPages` guard, in order. */
  function DropAbove(xs: seq<int>, total: int): (r: seq<int>)
    ensures |r| <= |xs|
    ensures forall x :: x in r ==> x in xs && x <= total
    ensures forall x :: x in xs && x <= total ==> x in r
  {
    if xs == [] then []
    else (if xs[0] > total then [] else [xs[0]]) + DropAbove(xs[1..], total)
  }

  /** On a run of consecutive numbers, the guard keeps a prefix. */
  lemma {:induction false} DropAboveConsecutive(xs: seq<int>, total: int)
    requires forall i :: 0 <= i < |xs| ==> xs[i] == xs[0] + i
    ensures |xs| > 0 ==> DropAbove(xs, total) == xs[..Min(|xs|, Max(0, total - xs[0] + 1))]
  {
    if |xs| > 0 {
      var tail := xs[1..];
      if |tail| > 0 {
        DropAboveConsecutive(tail, total);
      }
      if xs[0] > total {
        assert forall i :: 0 <= i < |tail| ==> tail[i] > total;
        DropAboveNone(tail, total);
      }
    }
  }

  lemma {:induction false} DropAboveNone(xs: seq<int>, total: int)
    requires forall i :: 0 <= i < |xs| ==> xs[i] > total
    ensures DropAbove(xs, total) == []
  {
    if xs != [] {
      DropAboveNone(xs[1..], total);
    }
  }

  function PageWindow(current: int, total: int): (r: seq<int>)
    requires total >= 1
  {
    DropAbove(Candidates(WindowStart(current), Min(WindowSize, total)), total)
  }

  /** The window is at most min(5, total) consecutive pages starting at
      max(1, current - 2), every one of them a page that exists. */
  lemma PageWindowShape(current: int, total: int)
    requires total >= 1
    ensures var r := PageWindow(current, total);
      && |r| == Min(Min(WindowSize, total), Max(0, total - WindowStart(current) + 1))
      && (forall i :: 0 <= i < |r| ==> r[i] == WindowStart(current) + i)
      && (forall i :: 0 <= i < |r| ==> 1 <= r[i] <= total)
  {
    var xs := Candidates(WindowStart(current), Min(WindowSize, total));
    DropAboveConsecutive(xs, total);
  }

  /** The current page always has its own button. */
  lemma CurrentPageInWindow(current: int, total: int)
    requires 1 <= current <= total
    ensures current in PageWindow(current, total)
  {
    var xs := Candidates(WindowStart(current), Min(WindowSize, total));
    assert xs[current - WindowStart(current)] == current;
  }
}
