/** The hero banner for one featured movie: the backdrop (or poster) as
    background, title and original title, rating, year, age badge, a details
    link and a favourite toggle that sends logged-out visitors to the profile
    page. The favourites store is outside this model: whether the movie is a
    favourite is an input and a toggle is an emitted action. The release
    year, which the page computes with the Date API, is an input too. */
module FeaturedFilm {
  import opened Wrappers
  import opened Text
  import opened Movies
  import MovieCard
  import ProtectedRoute

  const RemoveLabel: string := "Remove from Favourites"
  const AddLabel: string := "Add to Favourites"
  const NoYearText: string := "N/A"
  const AdultBadge: string := "18+"
  const AllAgesBadge: string := "All Ages"

  /** What a click on the favourite button does. */
  datatype FavouriteAction = Redirect(path: string) | ToggleFavourite(movie: Movie)

  /** `handleFavouriteClick`: logged out, go to the profile page (and do not
      toggle); logged in, toggle exactly this movie. */
  function HandleFavouriteClick(isLoggedIn: bool, movie: Movie): (a: FavouriteAction)
    ensures a.Redirect? <==> !isLoggedIn
    ensures a.Redirect? ==> a.path == ProtectedRoute.ProfilePath
    ensures a.ToggleFavourite? ==> a.movie == movie
  {
    if !isLoggedIn then Redirect(ProtectedRoute.ProfilePath) else ToggleFavourite(movie)
  }

  /** The year shown: "N/A" without a release date; otherwise the year the
      date parses to (`fullYear`, None when the date is invalid and the
      year is NaN). */
  function ReleaseYearText(releaseDate: JsText, fullYear: Option<int>): (r: string)
    ensures r == NoYearText <==> !releaseDate.Truthy()
    ensures releaseDate.Truthy() && fullYear.Some? ==> ParseInt(r) == Some(fullYear.value)
  {
    if !releaseDate.Truthy() then NoYearText
    else
      match fullYear
      case None => "NaN"
      case Some(y) =>
        var t := IntToDecimal(y);
        assert t[0] != 'N';
        ParseIntOfDecimal(y, []);
        assert t + [] == t;
        t
  }

  /** The background image: the original-size backdrop when the movie has
      one, else the poster path under the same base, unguarded. */
  function BackdropUrl(m: Movie): (r: string)
    ensures OriginalBase <= r
    ensures m.backdropPath.Truthy() ==> r[|OriginalBase|..] == m.backdropPath.s
    ensures !m.backdropPath.Truthy() ==> r[|OriginalBase|..] == m.posterPath.Interpolated()
  {
    var path := if m.backdropPath.Truthy() then m.backdropPath.s else m.posterPath.Interpolated();
    var url := OriginalBase + path;
    assert url[|OriginalBase|..] == path;
    url
  }

  /** A movie with neither image path still gets an image URL, ending in the
      text "null" or "undefined": the missing path is not suppressed. */
  lemma NoImagePathStillGivesUrl(m: Movie)
    requires !m.backdropPath.Truthy() && (m.posterPath.Null? || m.posterPath.Undefined?)
    ensures BackdropUrl(m) == OriginalBase + (if m.posterPath.Null? then "null" else "undefined")
  {
    assert BackdropUrl(m)[|OriginalBase|..] == m.posterPath.Interpolated();
  }

  /** `movie.adult !== undefined && (movie.adult ? "18+" : "All Ages")`. */
  function AgeBadge(adult: Option<bool>): (r: Option<string>)
    ensures r.None? <==> adult.None?
    ensures r == Some(AdultBadge) <==> adult == Some(true)
    ensures r == Some(AllAgesBadge) <==> adult == Some(false)
  {
    match adult
    case None => None
    case Some(a) => Some(if a then AdultBadge else AllAgesBadge)
  }

  function FavouriteLabel(isFavourite: bool): (r: string)
    ensures r == RemoveLabel <==> isFavourite
    ensures r == AddLabel <==> !isFavourite
  {
    if isFavourite then RemoveLabel else AddLabel
  }

  datatype Banner = Banner(
    backdrop: string,
    posterSrc: string,
    title: JsText,
    originalTitle: Option<JsText>,  // shown only when it differs from the title
    score: real,
    year: string,
    badge: Option<string>,
    detailsPath: string,
    favouriteLabel: string)

  /** What the component renders. */
  datatype FeaturedView = Placeholder | Featured(banner: Banner)

  /** The render: the placeholder for a null movie; otherwise the banner.
      The rating is `vote_average.toFixed(1)` with no guard, so a movie
      whose rating is not a number makes the render throw (Failure). */
  function FeaturedFilmView(movie: Option<Movie>, isFavourite: bool, fullYear: Option<int>)
    : (r: Result<FeaturedView, string>)
    ensures movie.None? <==> r == Success(Placeholder)
    ensures movie.Some? ==> (r.Failure? <==> movie.value.voteAverage.None?)
    ensures r.Success? && r.value.Featured? ==>
      var m := movie.value;
      var b := r.value.banner;
      && b.title == m.title
      && (b.originalTitle.Some? <==> m.originalTitle != m.title)
      && (b.originalTitle.Some? ==> b.originalTitle.value == m.originalTitle)
      && b.score == m.voteAverage.value
      && b.year == ReleaseYearText(m.releaseDate, fullYear)
      && b.badge == AgeBadge(m.adult)
      && b.backdrop == BackdropUrl(m)
      && b.posterSrc == PosterBase + m.posterPath.Interpolated()
      && b.detailsPath == MovieCard.DescriptionPath(m.id)
      && b.favouriteLabel == FavouriteLabel(isFavourite)
  {
    match movie
    case None => Success(Placeholder)
    case Some(m) =>
      if m.voteAverage.None? then Failure("TypeError: vote_average.toFixed is not a function")
      else
        Success(Featured(Banner(
          BackdropUrl(m),
          PosterBase + m.posterPath.Interpolated(),
          m.title,
          if m.originalTitle != m.title then Some(m.originalTitle) else None,
          m.voteAverage.value,
          ReleaseYearText(m.releaseDate, fullYear),
          AgeBadge(m.adult),
          MovieCard.DescriptionPath(m.id),
          FavouriteLabel(isFavourite))))
  }
}
