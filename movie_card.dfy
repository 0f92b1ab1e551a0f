/** A movie tile: a single click waits 200 ms and then opens the detail page;
    a second click inside that window cancels the navigation and instead
    appends the movie to the "favouriteMovies" list in local storage, unless
    a movie with the same id is already there. The timer is modelled by two
    events, a click and the timer firing. */
module MovieCard {
  import opened Wrappers
  import opened Text
  import opened Movies

  /** What local storage holds under "favouriteMovies": no key; a JSON array
      of movies; JSON that parses to a falsy value (`null`, `false`, `0`,
      `""`); or text that fails to parse or parses to a non-array. */
  datatype FavouritesSlot = Absent | Listed(movies: seq<Movie>) | FalsyJson | Invalid

  /** The list a double click reads: `JSON.parse(...) || []`; None when the
      read throws. */
  function StoredList(slot: FavouritesSlot): (r: Option<seq<Movie>>)
    ensures r.None? <==> slot.Invalid?
    ensures slot.Listed? ==> r == Some(slot.movies)
    ensures slot.Absent? || slot.FalsyJson? ==> r == Some([])
  {
    match slot
    case Listed(ms) => Some(ms)
    case Invalid => None
    case _ => Some([])
  }

  /** Some stored movie has this id (`favouriteMovies.find(m => m.id === id)`). */
  function ContainsId(list: seq<Movie>, id: int): (r: bool)
    ensures r <==> exists i :: 0 <= i < |list| && list[i].id == id
  {
    if list == [] then false
    else if list[0].id == id then true
    else
      var rest := ContainsId(list[1..], id);
      assert forall i :: 1 <= i < |list| ==> list[i] == list[1..][i - 1];
      rest
  }

  predicate UniqueIds(list: seq<Movie>) {
    forall i, j :: 0 <= i < j < |list| ==> list[i].id != list[j].id
  }

  /** What a click or the timer produces besides the state change. */
  datatype ClickEffect =
    | TimerStarted          // first click: navigation scheduled
    | FavouriteAdded        // double click: movie appended and written back
    | AlreadyFavourite      // double click: id present, storage not rewritten
    | StorageError          // double click: reading the list threw

  /** The second click of a double click: the new storage slot and the effect. */
  function DoubleClick(slot: FavouritesSlot, movie: Movie): (r: (FavouritesSlot, ClickEffect))
    ensures slot.Invalid? ==> r == (slot, StorageError)
    ensures !slot.Invalid? && ContainsId(StoredList(slot).value, movie.id) ==> r == (slot, AlreadyFavourite)
    ensures !slot.Invalid? && !ContainsId(StoredList(slot).value, movie.id) ==>
      r.1 == FavouriteAdded && r.0 == Listed(StoredList(slot).value + [movie])
  {
    match StoredList(slot)
    case None => (slot, StorageError)
    case Some(list) =>
      if ContainsId(list, movie.id) then (slot, AlreadyFavourite)
      else (Listed(list + [movie]), FavouriteAdded)
  }

  /** The page a single click opens: `/description/<id>`. */
  function DescriptionPath(id: int): (p: string)
    ensures |p| > |"/description/"| && p[..|"/description/"|] == "/description/"
  {
    "/description/" + IntToDecimal(id)
  }

  // ---------------------------------------------------------------------
  // Properties.
  // ---------------------------------------------------------------------

  /** A double click keeps the stored ids unique. */
  lemma DoubleClickKeepsIdsUnique(slot: FavouritesSlot, movie: Movie)
    requires slot.Listed? ==> UniqueIds(slot.movies)
    ensures DoubleClick(slot, movie).0.Listed? ==> UniqueIds(DoubleClick(slot, movie).0.movies)
  {
    if !slot.Invalid? {
      var list := StoredList(slot).value;
      if !ContainsId(list, movie.id) {
        var l2 := list + [movie];
        forall i, j | 0 <= i < j < |l2| ensures l2[i].id != l2[j].id {
          if j == |list| {
            assert l2[i] == list[i];
          }
        }
      }
    }
  }

  /** A second double click on the same movie changes nothing more. */
  lemma DoubleClickIdempotent(slot: FavouritesSlot, movie: Movie)
    requires !slot.Invalid?
    ensures DoubleClick(DoubleClick(slot, movie).0, movie) == (DoubleClick(slot, movie).0, AlreadyFavourite)
  {
    var list := StoredList(slot).value;
    if !ContainsId(list, movie.id) {
      var l2 := list + [movie];
      assert l2[|list|].id == movie.id;
    }
  }

  /** An absent key is read as the empty list: the first favourite is stored alone. */
  lemma FirstFavourite(movie: Movie)
    ensures DoubleClick(Absent, movie) == (Listed([movie]), FavouriteAdded)
  {
    assert [] + [movie] == [movie];
  }

  /** The detail path names the movie: reading the id back out of it gives the id. */
  lemma DescriptionPathNamesMovie(id: int)
    ensures ParseInt(DescriptionPath(id)[|"/description/"|..]) == Some(id)
  {
    var p := DescriptionPath(id);
    assert p[|"/description/"|..] == IntToDecimal(id) + [];
    ParseIntOfDecimal(id, []);
  }

  /** The favourite button hands exactly this movie to its callback (when none
      is supplied, the default does nothing), and stops the surrounding link. */
  datatype ButtonOutcome<E> = ButtonOutcome(callbackResult: Option<E>, followsLink: bool)

  function FavouriteButtonClick<E>(movie: Movie, onFavouriteClick: Option<Movie -> E>): (r: ButtonOutcome<E>)
    ensures !r.followsLink
    ensures onFavouriteClick.None? ==> r.callbackResult.None?
    ensures onFavouriteClick.Some? ==> r.callbackResult == Some(onFavouriteClick.value(movie))
  {
    ButtonOutcome(if onFavouriteClick.Some? then Some(onFavouriteClick.value(movie)) else None, false)
  }

  // ---------------------------------------------------------------------
  // The component's state: the pending timer and the storage slot.
  // ---------------------------------------------------------------------

  class MovieCardState {
    const movie: Movie
    var timerPending: bool            // clickTimeout !== null
    var favourites: FavouritesSlot    // local storage "favouriteMovies"

    constructor (m: Movie, stored: FavouritesSlot)
      ensures movie == m && !timerPending && favourites == stored
    {
      movie, timerPending, favourites := m, false, stored;
    }

    /** `handleClick`. With no pending timer it starts one and touches
        nothing else; with one pending it cancels it (so no navigation
        follows) and performs the double-click write. */
    method HandleClick() returns (effect: ClickEffect)
      modifies this
      ensures !old(timerPending) ==> timerPending && favourites == old(favourites) && effect == TimerStarted
      ensures old(timerPending) ==> !timerPending && (favourites, effect) == DoubleClick(old(favourites), movie)
    {
      if timerPending {
        timerPending := false;
        var list := StoredList(favourites);
        if list.None? {
          effect := StorageError;
          return;
        }
        if ContainsId(list.value, movie.id) {
          effect := AlreadyFavourite;
        } else {
          favourites := Listed(list.value + [movie]);
          effect := FavouriteAdded;
        }
      } else {
        timerPending := true;
        effect := TimerStarted;
      }
    }

    /** The 200 ms timer fires (only a timer that was not cancelled can):
        navigate to the detail page and clear the pending state. */
    method TimerFires() returns (path: string)
      requires timerPending
      modifies this
      ensures !timerPending && favourites == old(favourites)
      ensures path == DescriptionPath(movie.id)
    {
      path := DescriptionPath(movie.id);
      timerPending := false;
    }
  }
}
