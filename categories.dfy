/** The category browser: a genre list, a selected genre, and one page of
    that genre's movies with numbered pagination. Fetch results arrive as
    inputs (None for a failed request). */
module Categories {
  import opened Wrappers
  import opened Movies
  import opened Pagination

  class CategoriesState {
    var loading: bool                 // the shared loading flag, set around the genre fetch
    var genres: seq<Genre>
    var selectedGenre: Option<Genre>
    var movies: seq<Movie>
    var currentPage: int
    var totalPages: int
    var loadingMovies: bool

    /** The current page is always a page that exists, and the count never
        exceeds its cap. */
    predicate Valid()
      reads this
    {
      1 <= currentPage <= totalPages <= MaxPages
    }

    constructor ()
      ensures Valid()
      ensures genres == [] && selectedGenre.None? && movies == [] && !loadingMovies
      ensures currentPage == 1 && totalPages == 1
    {
      loading, genres, selectedGenre, movies := false, [], None, [];
      currentPage, totalPages, loadingMovies := 1, 1, false;
    }

    method BeginGenresLoad()
      requires Valid()
      modifies this`loading
      ensures Valid() && loading
    {
      loading := true;
    }

    /** `loadGenres`: a fetched list replaces the genres; a failure keeps them. */
    method GenresLoaded(result: Option<seq<Genre>>)
      requires Valid()
      modifies this`genres, this`loading
      ensures Valid() && !loading
      ensures genres == if result.Some? then result.value else old(genres)
    {
      if result.Some? {
        genres := result.value;
      }
      loading := false;
    }

    /** `handleGenreSelect`: back to page 1 with an empty list. */
    method HandleGenreSelect(g: Genre)
      requires Valid()
      modifies this`selectedGenre, this`currentPage, this`movies
      ensures Valid()
      ensures selectedGenre == Some(g) && currentPage == 1 && movies == []
    {
      selectedGenre := Some(g);
      currentPage := 1;
      movies := [];
    }

    /** `handlePageChange`. */
    method HandlePageChange(newPage: int)
      requires Valid()
      modifies this`currentPage
      ensures Valid()
      ensures currentPage == PageAfterChange(old(currentPage), totalPages, newPage)
    {
      if newPage >= 1 && newPage <= totalPages {
        currentPage := newPage;
      }
    }

    method BeginMoviesLoad()
      requires Valid()
      modifies this`loadingMovies
      ensures Valid() && loadingMovies
    {
      loadingMovies := true;
    }

    /** `loadMoviesForGenre` completing: a fetched page replaces the list
        wholesale and fixes the page count; a failure keeps both. */
    method MoviesLoaded(result: Option<seq<Movie>>)
      requires Valid()
      modifies this`movies, this`totalPages, this`loadingMovies
      ensures Valid() && !loadingMovies
      ensures result.Some? ==> movies == result.value && totalPages == TotalPagesAfterLoad()
      ensures result.None? ==> movies == old(movies) && totalPages == old(totalPages)
    {
      if result.Some? {
        movies := result.value;
        totalPages := TotalPagesAfterLoad();
      }
      loadingMovies := false;
    }

    /** The page numbers that get a button. */
    function PageButtons(): (r: seq<int>)
      reads this
      requires Valid()
      ensures currentPage in r
      ensures forall i :: 0 <= i < |r| ==> 1 <= r[i] <= totalPages
      ensures |r| <= WindowSize
    {
      PageWindowShape(currentPage, totalPages);
      CurrentPageInWindow(currentPage, totalPages);
      PageWindow(currentPage, totalPages)
    }
  }
}
