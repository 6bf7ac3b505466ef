/**
 * The movie detail screen's favorite logic. On appearing, the screen asks
 * for the account's favorite movies and sets `isFavorite` to whether the
 * shown movie is among them. The heart button asks TheMovieDB to flip that
 * state, and `isFavorite` follows only when the reply carries a status code
 * the request direction accepts.
 */
module MovieDetail {
  import opened Wrappers
  import opened TmdbResponse
  import opened Requests

  /** What `Movie.moviesFromResults` makes of one result. */
  datatype Movie = Movie(id: int, title: string, posterPath: Option<string>)

  /** Some movie of the list has the given id. */
  predicate Lists(movies: seq<Movie>, id: int) {
    exists i :: 0 <= i < |movies| && movies[i].id == id
  }

  /**
   * The requests viewWillAppear resumes, in order: the favorites list, then
   * the poster when the movie has a poster path; none without a movie.
   */
  function AppearanceRequests(apiKey: string, movie: Option<Movie>, sessionID: Option<string>, userID: Option<int>)
    : (rs: seq<Request>)
    requires movie.Some? ==> sessionID.Some? && userID.Some?
    ensures movie.None? <==> rs == []
    ensures |rs| == if movie.None? then 0 else if movie.value.posterPath.Some? then 2 else 1
    ensures movie.Some? ==> rs[0] == FavoritesRequest(apiKey, sessionID.value, userID.value)
    ensures (exists i :: 0 <= i < |rs| && rs[i].PosterImage?) <==> movie.Some? && movie.value.posterPath.Some?
    ensures forall i :: 0 <= i < |rs| && rs[i].PosterImage? ==>
              rs[i] == PosterImage(PosterSize, movie.value.posterPath.value)
  {
    if movie.None? then []
    else
      var favorites := FavoritesRequest(apiKey, sessionID.value, userID.value);
      match movie.value.posterPath
      case None => [favorites]
      case Some(path) =>
        var rs := [favorites, PosterImage(PosterSize, path)];
        assert rs[1].PosterImage?;
        rs
  }

  /**
   * The movies a favorites response yields, when it passes every guard: no
   * error, a 2xx status, data, no integer `status_code`, and `results` a list
   * of objects.
   */
  function FavoritesFetched(r: Response, moviesFromResults: seq<JsonObject> -> seq<Movie>): (m: Option<seq<Movie>>)
    ensures m.Some? <==>
              && !r.error && r.status.Some? && Successful(r.status.value)
              && Body(r).Some? && InBandStatus(Body(r).value).None?
              && "results" in Body(r).value
              && Body(r).value["results"].JArray? && AllObjects(Body(r).value["results"].items)
    ensures m.Some? ==> m.value == moviesFromResults(ObjectFields(Body(r).value["results"].items))
  {
    var o := Validate(r, ResultsList);
    if o.Accepted? then Some(moviesFromResults(o.value.list)) else None
  }

  /** The acceptance rule for a favorite toggle's `status_code`. */
  predicate ToggleAccepted(shouldFavorite: bool, code: int): (ok: bool)
    ensures ok <==> if shouldFavorite then code == 1 || code == 12 else code == 13
  {
    !(shouldFavorite && !(code == 1 || code == 12)) && !(!shouldFavorite && code != 13)
  }

  /** Guard k of the toggle handler's chain, judged on its own. */
  predicate ToggleGuardFails(r: Response, shouldFavorite: bool, k: nat) {
    if k < 4 then ReceiveGuardFails(r, k)
    else if k == 4 then Body(r).Some? && InBandStatus(Body(r).value).None?
    else
      && k == 5 && Body(r).Some? && InBandStatus(Body(r).value).Some?
      && !ToggleAccepted(shouldFavorite, InBandStatus(Body(r).value).value)
  }

  /**
   * The toggle handler's chain. Unlike every other handler, it requires an
   * integer `status_code` and goes on only with a code the direction accepts.
   */
  function ValidateToggle(r: Response, shouldFavorite: bool): (o: Outcome<int>)
    ensures forall k: nat :: k < Stage(o) ==> !ToggleGuardFails(r, shouldFavorite, k)
    ensures Stage(o) < 6 ==> ToggleGuardFails(r, shouldFavorite, Stage(o))
    ensures o.Trapped? <==> Receive(r).Trapped?
    ensures o.Accepted? ==>
              Body(r).Some? && InBandStatus(Body(r).value) == Some(o.value) && ToggleAccepted(shouldFavorite, o.value)
    ensures o.Rejected? && o.failure.UnexpectedCode? ==>
              Body(r).Some? && InBandStatus(Body(r).value) == Some(o.failure.code)
    ensures o.Rejected? ==> !o.failure.RemoteError? && !o.failure.MissingField?
  {
    match Receive(r)
    case Rejected(f) => Rejected(f)
    case Trapped => Trapped
    case Accepted(body) =>
      match InBandStatus(body)
      case None => Rejected(NoStatusCode)
      case Some(code) => if ToggleAccepted(shouldFavorite, code) then Accepted(code) else Rejected(UnexpectedCode(code))
  }

  /**
   * `isFavorite` after a whole toggle: the request asks for the opposite
   * state, and the flag flips exactly when the reply is accepted.
   */
  function Toggled(isFavorite: bool, r: Response): (f: bool)
    requires !Receive(r).Trapped?
    ensures f != isFavorite <==> ValidateToggle(r, !isFavorite).Accepted?
  {
    if ValidateToggle(r, !isFavorite).Accepted? then !isFavorite else isFavorite
  }

  /** Two accepted toggles bring the flag back. */
  lemma TogglesCancel(isFavorite: bool, r1: Response, r2: Response)
    requires !Receive(r1).Trapped? && !Receive(r2).Trapped?
    requires ValidateToggle(r1, !isFavorite).Accepted? && ValidateToggle(r2, isFavorite).Accepted?
    ensures Toggled(Toggled(isFavorite, r1), r2) == isFavorite
  {
  }

  class MovieDetailViewController {
    const app: AppDelegate
    var isFavorite: bool
    var movie: Option<Movie>

    constructor (app: AppDelegate, movie: Option<Movie>)
      ensures this.app == app && this.movie == movie && !isFavorite
    {
      this.app := app;
      this.movie := movie;
      isFavorite := false;
    }

    /**
     * Resumes the favorites request and, when the movie has a poster path,
     * the poster request; without a movie it does nothing. The session id
     * and the user id are force-unwrapped.
     */
    method ViewWillAppear()
      requires movie.Some? ==> app.sessionID.Some? && app.userID.Some?
      modifies app`sent
      ensures app.sent == old(app.sent) + AppearanceRequests(app.apiKey, movie, app.sessionID, app.userID)
    {
      if movie.Some? {
        app.sent := app.sent + [FavoritesRequest(app.apiKey, app.sessionID.value, app.userID.value)];
        if movie.value.posterPath.Some? {
          app.sent := app.sent + [PosterImage(PosterSize, movie.value.posterPath.value)];
        }
      }
    }

    /**
     * The favorites request's completion handler: past the guards, the flag
     * is reset and set again for each listed movie with the shown movie's id.
     */
    method FavoritesCompleted(r: Response, moviesFromResults: seq<JsonObject> -> seq<Movie>)
      requires movie.Some? && !Receive(r).Trapped?
      modifies this`isFavorite
      ensures var fetched := FavoritesFetched(r, moviesFromResults);
        isFavorite == if fetched.Some? then Lists(fetched.value, movie.value.id) else old(isFavorite)
    {
      var o := Validate(r, ResultsList);
      if !o.Accepted? {
        return;
      }
      var movies := moviesFromResults(o.value.list);
      isFavorite := false;
      for i := 0 to |movies|
        invariant isFavorite <==> exists j :: 0 <= j < i && movies[j].id == movie.value.id
      {
        if movies[i].id == movie.value.id {
          isFavorite := true;
        }
      }
    }

    /**
     * The heart button: resumes a POST asking for the opposite of the current
     * state, and hands that direction to the completion handler.
     */
    method ToggleFavorite() returns (shouldFavorite: bool)
      requires movie.Some? && app.sessionID.Some? && app.userID.Some?
      modifies app`sent
      ensures shouldFavorite == !isFavorite
      ensures app.sent == old(app.sent) +
                [MarkFavoriteRequest(app.apiKey, app.sessionID.value, app.userID.value, movie.value.id, shouldFavorite)]
    {
      shouldFavorite := !isFavorite;
      app.sent := app.sent +
        [MarkFavoriteRequest(app.apiKey, app.sessionID.value, app.userID.value, movie.value.id, shouldFavorite)];
    }

    /** The toggle's completion handler: the flag takes the requested state only on acceptance. */
    method ToggleFavoriteCompleted(shouldFavorite: bool, r: Response)
      requires !Receive(r).Trapped?
      modifies this`isFavorite
      ensures isFavorite == if ValidateToggle(r, shouldFavorite).Accepted? then shouldFavorite else old(isFavorite)
    {
      var o := ValidateToggle(r, shouldFavorite);
      if !o.Accepted? {
        return;
      }
      isFavorite := shouldFavorite;
    }
  }

  /**
   * A tap on the heart answered by `r`: one POST asking for the opposite state
   * is resumed, and the flag ends as `Toggled` says.
   */
  method TapHeart(c: MovieDetailViewController, r: Response)
    requires c.movie.Some? && c.app.sessionID.Some? && c.app.userID.Some? && !Receive(r).Trapped?
    modifies c`isFavorite, c.app`sent
    ensures c.app.sent == old(c.app.sent) +
              [MarkFavoriteRequest(c.app.apiKey, c.app.sessionID.value, c.app.userID.value, c.movie.value.id, !old(c.isFavorite))]
    ensures c.isFavorite == Toggled(old(c.isFavorite), r)
  {
    var shouldFavorite := c.ToggleFavorite();
    c.ToggleFavoriteCompleted(shouldFavorite, r);
  }
}
