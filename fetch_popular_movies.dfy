/** The popular listing: pages 1, 2 and 3 of the popular endpoint are
    requested together, and their results are joined in page order by a
    `reduce`/`concat` fold. A single failed page fails the whole call. Each
    page's response is an input, given by a function of the page number. */
module FetchPopularMovies {
  import opened Wrappers
  import opened Text

  const PopularPages: seq<nat> := [1, 2, 3]
  const PopularEndpoint: string := "https://api.themoviedb.org/3/movie/popular?page="

  function PageUrl(page: nat): (u: string)
    ensures PopularEndpoint <= u && |u| > |PopularEndpoint|
  {
    PopularEndpoint + NatToDecimal(page)
  }

  /** The requests made, in order. */
  function RequestedUrls(): (r: seq<string>)
    ensures r == ["https://api.themoviedb.org/3/movie/popular?page=1",
                  "https://api.themoviedb.org/3/movie/popular?page=2",
                  "https://api.themoviedb.org/3/movie/popular?page=3"]
  {
    var r := seq(|PopularPages|, i requires 0 <= i < |PopularPages| => PageUrl(PopularPages[i]));
    assert NatToDecimal(1) == "1" && NatToDecimal(2) == "2" && NatToDecimal(3) == "3";
    assert r == [PageUrl(1), PageUrl(2), PageUrl(3)];
    assert PageUrl(1) == PopularEndpoint + "1" == "https://api.themoviedb.org/3/movie/popular?page=1";
    assert PageUrl(2) == PopularEndpoint + "2" == "https://api.themoviedb.org/3/movie/popular?page=2";
    assert PageUrl(3) == PopularEndpoint + "3" == "https://api.themoviedb.org/3/movie/popular?page=3";
    r
  }

  /** One page's response: a failed request, or its `results` list. */
  datatype PageResponse<T> = PageFailed(reason: string) | PageOk(results: seq<T>)

  /** `Promise.all`: every page's results in request order, or a failure. */
  function AllPages<T>(responses: seq<PageResponse<T>>): (r: Result<seq<seq<T>>, string>)
    ensures r.Success? <==> forall i :: 0 <= i < |responses| ==> responses[i].PageOk?
    ensures r.Success? ==>
      && |r.value| == |responses|
      && forall i :: 0 <= i < |responses| ==> r.value[i] == responses[i].results
  {
    if responses == [] then Success([])
    else
      var init := responses[..|responses| - 1];
      var last := responses[|responses| - 1];
      assert forall i :: 0 <= i < |init| ==> init[i] == responses[i];
      match AllPages(init)
      case Failure(e) => Failure(e)
      case Success(pages) =>
        match last
        case PageFailed(e) => Failure(e)
        case PageOk(results) => Success(pages + [results])
  }

  /** `responses.reduce((acc, page) => acc.concat(page), [])`: a left fold. */
  function ConcatPages<T>(pages: seq<seq<T>>): seq<T> {
    if pages == [] then []
    else ConcatPages(pages[..|pages| - 1]) + pages[|pages| - 1]
  }

  /** The independent reading of the join: page 0's entries, then the rest. */
  function Flatten<T>(pages: seq<seq<T>>): seq<T> {
    if pages == [] then [] else pages[0] + Flatten(pages[1..])
  }

  function TotalLength<T>(pages: seq<seq<T>>): nat {
    if pages == [] then 0 else |pages[0]| + TotalLength(pages[1..])
  }

  function PageMultiset<T>(pages: seq<seq<T>>): multiset<T> {
    if pages == [] then multiset{} else multiset(pages[0]) + PageMultiset(pages[1..])
  }

  lemma {:induction false} FlattenSnoc<T>(pages: seq<seq<T>>, last: seq<T>)
    ensures Flatten(pages + [last]) == Flatten(pages) + last
  {
    if pages == [] {
      assert [] + [last] == [last];
      assert Flatten([last]) == last + Flatten([]);
    } else {
      assert (pages + [last])[1..] == pages[1..] + [last];
      FlattenSnoc(pages[1..], last);
    }
  }

  /** The left fold joins the pages in order, each kept whole: it is the
      same as reading page 0, then page 1, and so on. */
  lemma {:induction false} ConcatIsFlatten<T>(pages: seq<seq<T>>)
    ensures ConcatPages(pages) == Flatten(pages)
  {
    if pages != [] {
      var init := pages[..|pages| - 1];
      ConcatIsFlatten(init);
      FlattenSnoc(init, pages[|pages| - 1]);
      assert init + [pages[|pages| - 1]] == pages;
    }
  }

  /** No entry is dropped and none is merged: the join has every entry of
      every page, duplicates across pages included. */
  lemma {:induction false} FlattenKeepsEverything<T>(pages: seq<seq<T>>)
    ensures |Flatten(pages)| == TotalLength(pages)
    ensures multiset(Flatten(pages)) == PageMultiset(pages)
  {
    if pages != [] {
      FlattenKeepsEverything(pages[1..]);
    }
  }

  /** `fetchPopularMovies`, with `respond(p)` the response to page `p`. */
  function FetchPopularMovies<T>(respond: nat -> PageResponse<T>): (r: Result<seq<T>, string>)
    ensures r.Failure? <==> exists i :: 0 <= i < |PopularPages| && respond(PopularPages[i]).PageFailed?
  {
    var responses := seq(|PopularPages|, i requires 0 <= i < |PopularPages| => respond(PopularPages[i]));
    assert forall i :: 0 <= i < |PopularPages| ==> responses[i] == respond(PopularPages[i]);
    match AllPages(responses)
    case Failure(e) => Failure(e)
    case Success(pages) => Success(ConcatPages(pages))
  }

  /** When all three pages arrive, the listing is page 1, then page 2, then
      page 3, each in its own order; its length is the sum of theirs and no
      duplicate is removed. */
  lemma PopularIsThreePagesInOrder<T>(respond: nat -> PageResponse<T>)
    requires respond(1).PageOk? && respond(2).PageOk? && respond(3).PageOk?
    ensures FetchPopularMovies(respond)
      == Success(respond(1).results + respond(2).results + respond(3).results)
    ensures |FetchPopularMovies(respond).value|
      == |respond(1).results| + |respond(2).results| + |respond(3).results|
    ensures multiset(FetchPopularMovies(respond).value)
      == multiset(respond(1).results) + multiset(respond(2).results) + multiset(respond(3).results)
  {
    var responses := seq(|PopularPages|, i requires 0 <= i < |PopularPages| => respond(PopularPages[i]));
    var pages := AllPages(responses).value;
    assert pages == [respond(1).results, respond(2).results, respond(3).results];
    ConcatIsFlatten(pages);
    assert Flatten(pages[2..]) == respond(3).results + Flatten(pages[3..]);
    assert Flatten(pages[1..]) == respond(2).results + Flatten(pages[2..]);
    assert Flatten(pages) == respond(1).results + Flatten(pages[1..]);
    assert Flatten(pages) == respond(1).results + respond(2).results + respond(3).results;
  }

  /** Three full pages of twenty make sixty movies. */
  lemma SixtyFromThreeFullPages<T>(respond: nat -> PageResponse<T>)
    requires forall p :: 1 <= p <= 3 ==> respond(p).PageOk? && |respond(p).results| == 20
    ensures FetchPopularMovies(respond).Success? && |FetchPopularMovies(respond).value| == 60
  {
    PopularIsThreePagesInOrder(respond);
  }

  /** Only pages 1 to 3 matter: responders that agree on them give the same listing. */
  lemma OnlyFirstThreePages<T>(f: nat -> PageResponse<T>, g: nat -> PageResponse<T>)
    requires f(1) == g(1) && f(2) == g(2) && f(3) == g(3)
    ensures FetchPopularMovies(f) == FetchPopularMovies(g)
  {
    var rf := seq(|PopularPages|, i requires 0 <= i < |PopularPages| => f(PopularPages[i]));
    var rg := seq(|PopularPages|, i requires 0 <= i < |PopularPages| => g(PopularPages[i]));
    assert rf == rg;
  }
}
