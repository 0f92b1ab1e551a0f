/** The single-category page reached by `/category/:genreId`: it names the
    genre whose id is `parseInt` of the route parameter, shows one page of
    its movies, and paginates as the category browser does. Fetch results
    arrive as inputs (None for a failed request). */
module CategoryPage {
  import opened Wrappers
  import opened Text
  import opened Movies
  import opened Pagination

  /** `genres.find(g => g.id === id)`: the first genre with that id. A NaN
      id (None) equals nothing. */
  function FindGenre(genres: seq<Genre>, id: Option<int>): (r: Option<Genre>)
    ensures r.None? <==> id.None? || forall i :: 0 <= i < |genres| ==> genres[i].id != id.value
    ensures r.Some? ==> exists i :: 0 <= i < |genres| && genres[i] == r.value && Some(genres[i].id) == id
                                   && forall j :: 0 <= j < i ==> genres[j].id != id.value
  {
    if id.None? || genres == [] then None
    else if genres[0].id == id.value then Some(genres[0])
    else
      var rest := FindGenre(genres[1..], id);
      assert forall i :: 1 <= i < |genres| ==> genres[i] == genres[1..][i - 1];
      rest
  }

  /** A route built from a genre's id finds that genre (the first with that id). */
  lemma RouteFindsGenre(genres: seq<Genre>, k: nat)
    requires k < |genres| && forall j :: 0 <= j < k ==> genres[j].id != genres[k].id
    ensures FindGenre(genres, ParseInt(IntToDecimal(genres[k].id))) == Some(genres[k])
  {
    var text := IntToDecimal(genres[k].id);
    assert text + [] == text;
    ParseIntOfDecimal(genres[k].id, []);
    var id := Some(genres[k].id);
    var r := FindGenre(genres, id);
    assert r.Some?;
    var i :| 0 <= i < |genres| && genres[i] == r.value && Some(genres[i].id) == id
             && forall j :: 0 <= j < i ==> genres[j].id != id.value;
    assert i == k;
  }

  class CategoryPageState {
    const routeGenreId: string        // the `:genreId` route parameter
    var loading: bool                 // the shared loading flag
    var movies: seq<Movie>
    var genreName: string
    var currentPage: int
    var totalPages: int

    predicate Valid()
      reads this
    {
      1 <= currentPage <= totalPages <= MaxPages
    }

    constructor (route: string)
      ensures Valid() && routeGenreId == route
      ensures movies == [] && genreName == "" && currentPage == 1 && totalPages == 1 && !loading
    {
      routeGenreId := route;
      loading, movies, genreName := false, [], "";
      currentPage, totalPages := 1, 1;
    }

    method BeginLoad()
      requires Valid()
      modifies this`loading
      ensures Valid() && loading
    {
      loading := true;
    }

    /** `loadCategoryData` completing. The genre list comes first: if it
        fails, nothing is set (and the movies are never requested). Else a
        matching genre names the page (no match keeps the old name); then a
        fetched page replaces the movies and fixes the page count, while a
        failed one keeps both. Loading ends either way. */
    method CategoryLoaded(genresResult: Option<seq<Genre>>, moviesResult: Option<seq<Movie>>)
      requires Valid()
      modifies this`loading, this`movies, this`genreName, this`totalPages
      ensures Valid() && !loading
      ensures genresResult.None? ==>
        movies == old(movies) && genreName == old(genreName) && totalPages == old(totalPages)
      ensures genresResult.Some? ==>
        genreName == match FindGenre(genresResult.value, ParseInt(routeGenreId))
                     case Some(g) => g.name
                     case None => old(genreName)
      ensures genresResult.Some? && moviesResult.Some? ==>
        movies == moviesResult.value && totalPages == TotalPagesAfterLoad()
      ensures genresResult.Some? && moviesResult.None? ==>
        movies == old(movies) && totalPages == old(totalPages)
    {
      if genresResult.Some? {
        var genre := FindGenre(genresResult.value, ParseInt(routeGenreId));
        if genre.Some? {
          genreName := genre.value.name;
        }
        if moviesResult.Some? {
          movies := moviesResult.value;
          totalPages := TotalPagesAfterLoad();
        }
      }
      loading := false;
    }

    /** `handlePageChange`. */
    method HandlePageChange(newPage: int)
      requires Valid()
      modifies this`currentPage
      ensures Valid()
      ensures currentPage == PageAfterChange(old(currentPage), totalPages, newPage)
    {
      if newPage >= 1 && newPage <= totalPages {
        currentPage := newPage;
      }
    }

    /** The page numbers that get a button. */
    function PageButtons(): (r: seq<int>)
      reads this
      requires Valid()
      ensures currentPage in r
      ensures forall i :: 0 <= i < |r| ==> r[i] == WindowStart(currentPage) + i && r[i] <= totalPages
      ensures |r| <= WindowSize
    {
      PageWindowShape(currentPage, totalPages);
      CurrentPageInWindow(currentPage, totalPages);
      PageWindow(currentPage, totalPages)
    }
  }
}
