# MyFavoriteMovies: the decision logic of the login and movie-detail screens

MyFavoriteMovies is an iOS app built from two UIKit view controllers. The
login screen logs a user in to TheMovieDB with a four-step handshake:

1. request token;
2. validate with login;
3. session id;
4. account (user id).

The movie detail screen shows whether a movie is among the account's
favorites, and lets the user flip that state. Almost all of the code is UI and
networking. This project models the decision logic inside the network
completion handlers and proves properties of it. The network, JSON decoding
and UIKit are treated as given inputs.

- `TmdbResponse` (tmdb_response.dfy) is the guard chain every completion
  handler runs over its `(error, status, data)` triple. The guards are, in
  order: transport error, a status in the "Successful 2xx" class (section 15.3
  of RFC 9110), data present, the body decodes to a JSON object, TheMovieDB's
  in-band `status_code` read as an `Int`, and the expected key with the expected type.
  The app is written in Swift 3, whose `as? Int` accepts any JSON number and
  truncates a fraction toward zero; `AsInt` models that cast.
  `Validate` returns a tagged outcome. Its contract says that the outcome names
  the first failing guard: every earlier guard, judged on its own
  (`GuardFails`), passes, and the named one fails. A forced cast on a body that
  is not a JSON object traps; this is the explicit `Trapped` outcome.
- `Requests` (requests.dfy) holds the requests the controllers resume on the
  shared URL session and the `AppDelegate` object. That object holds the shared
  credentials and the log of resumed tasks.
- `LoginFlow` (login_flow.dfy) is the handshake as a transition system over
  snapshots (`Login`) of the screen and the app delegate:
  - `Press` models the login button;
  - one function per completion handler;
  - `Run` feeds a sequence of responses to whichever handler is waiting.
  `HandshakeOrder` is proved by induction over any response sequence. It shows
  that a handshake resumes a prefix of token → validate → session → account.
  Each request carries the stored credential it should. A credential is stored
  only by its own step, and it is stored before the next step starts. A failure
  rolls nothing back.
- `LoginController` (login_controller.dfy) is the `LoginViewController` class.
  Its fields are the UI-enabled flag, the label, the step in flight and the text
  fields' contents. Each Swift function is one method: a request starter or a
  completion handler. Each handler is proved to move the object exactly as the
  matching `LoginFlow` function says.
- `MovieDetail` (movie_detail.dfy) is the `MovieDetailViewController` class:
  - the favorites fetch, whose membership loop is proved to set `isFavorite`
    to "some listed movie has this id";
  - the toggle request;
  - the toggle handler, whose acceptance rule takes 1 or 12 when favoriting and
    13 when unfavoriting. Unlike every other handler, it needs a numeric
    `status_code` to be present.

The model follows the code in these places:
- A `success` of false is handled like a missing `success`. There is no
  separate invalid-credentials error.
- Stored credentials are not cleared when the user logs in again.
- The toggle's path is kept as written: `account/<id>/favorite)`.
- Three failure paths never re-enable the UI, which leaves the login button
  disabled for good:
  - a transport error in step 1;
  - a missing `session_id`;
  - a step-4 body that is not JSON.
  `LoginFlow.SilentFailures` names these paths. `LoginFlow.IdleIgnoresResponses`
  shows that no later response moves such a screen. `LoginFlow.Press` requires an
  enabled UI, so no tap can restart it either. The model does not fix this.

## Model

| member | source | states |
|---|---|---|
| TmdbResponse.Receive | MyFavoriteMovies/LoginViewController.swift:104-136 | error, then 2xx status, then data, then JSON decoding, in that order; the outcome names the first failing guard, a non-object body traps, and a 2xx object body is accepted |
| TmdbResponse.Extract | MyFavoriteMovies/LoginViewController.swift:149-152 | the conditional cast of the expected key succeeds exactly when the key is present with the expected type (`success` also must be true); the value is the key's own content: its string, the integer `as? Int` reads from it, or its list's objects in order |
| TmdbResponse.Validate | MyFavoriteMovies/LoginViewController.swift:104-152 | the whole chain stops at the first failing guard, with every earlier guard passing; a numeric `status_code` rejects before the expected key is read; acceptance yields the expected key's value |
| TmdbResponse.AcceptedIffAllGuardsPass | MyFavoriteMovies/LoginViewController.swift:292-327 | a handler goes on exactly when no error, 2xx, an object body, no numeric `status_code`, and the expected key well typed all hold together |
| TmdbResponse.InBandErrorWins | MyFavoriteMovies/LoginViewController.swift:318-327 | a numeric `status_code` gives a remote error with the code `as? Int` reads, even when the expected key is present and valid |
| TmdbResponse.FractionsTruncate | MyFavoriteMovies/LoginViewController.swift:398-412 | a `status_code` with a fraction is the in-band error of its truncation, and an `id` of 42.5 is stored as user id 42 |
| TmdbResponse.SuccessMustBeTrue | MyFavoriteMovies/LoginViewController.swift:238-241 | validate-with-login passes only on a Bool `success` equal to true; missing, false or non-Bool all fail alike |
| LoginFlow.Press | MyFavoriteMovies/LoginViewController.swift:51-74 | an empty field shows "Username or Password Empty.", starts no request and keeps the UI enabled; otherwise the UI is disabled and exactly the token request is resumed |
| LoginFlow.TokenReceived | MyFavoriteMovies/LoginViewController.swift:101-158 | step 2 starts exactly when the token response passes; the token is stored and sent with the fields' contents; a failure stores nothing and re-enables the UI except on a transport error |
| LoginFlow.ValidateReceived | MyFavoriteMovies/LoginViewController.swift:192-253 | step 3 starts exactly when the validation passes, with the stored token; a failure re-enables the UI and changes no credential |
| LoginFlow.SessionReceived | MyFavoriteMovies/LoginViewController.swift:280-334 | step 4 starts exactly when the session response passes; the session id is stored and sent; a missing session id leaves the UI disabled |
| LoginFlow.AccountReceived | MyFavoriteMovies/LoginViewController.swift:360-415 | the user id is stored and the movies screen presented exactly when the account response passes; a non-JSON body leaves the UI disabled |
| LoginFlow.Deliver | MyFavoriteMovies/LoginViewController.swift:101-415 | handing a response to the waiting handler keeps the invariant (UI disabled while a request is in flight, a stored token while validating) and adds at most one request |
| LoginFlow.Run | MyFavoriteMovies/LoginViewController.swift:87-420 | any sequence of responses keeps the invariant and only appends to the request log, at most one request per response |
| LoginFlow.HandshakeOrder | MyFavoriteMovies/LoginViewController.swift:87-420 | whatever the responses: the requests resumed are a prefix of token, validate, session, account; validate carries the fields and stored token, session the stored token, account the stored session id; credentials are stored in order and never rolled back |
| LoginFlow.SilentFailures | MyFavoriteMovies/LoginViewController.swift:104-394 | a handler leaves nothing in flight and the UI disabled exactly on a step-1 transport error, a missing `session_id`, or a step-4 parse failure |
| LoginFlow.IdleIgnoresResponses | MyFavoriteMovies/LoginViewController.swift:480-486 | with nothing in flight, no response changes the state; with the UI disabled too (so the button delivers no tap), the screen stays stuck for good |
| LoginFlow.FailedValidationStopsAtTwo | MyFavoriteMovies/LoginViewController.swift:238-241 | a failed validate-with-login leaves exactly two requests resumed, the session never asked for, only the token stored, and the UI enabled |
| LoginFlow.ServerErrorFirst | MyFavoriteMovies/LoginViewController.swift:117-121 | an HTTP 500 on the token request stops the handshake after one request, storing nothing and re-enabling the UI |
| LoginFlow.AllStepsPass | MyFavoriteMovies/LoginViewController.swift:149-413 | four accepted responses store exactly the token, session id and user id they carried, resume the four requests in order and present the movies screen |
| LoginFlow.HappyPath | MyFavoriteMovies/LoginViewController.swift:149-413 | bodies carrying "abc", true, "xyz" and 42 log in with those credentials |
| LoginFlow.InBandErrorBeatsSuccess | MyFavoriteMovies/LoginViewController.swift:232-241 | `success: true` together with `status_code: 34` is rejected as remote error 34 |
| LoginController.LoginViewController.constructor | MyFavoriteMovies/LoginViewController.swift:30-36 | the screen starts enabled, with a blank label and nothing in flight |
| LoginController.LoginViewController.SetUIEnabled | MyFavoriteMovies/LoginViewController.swift:480-485 | sets the enabled flag and clears the label |
| LoginController.LoginViewController.DisplayError | MyFavoriteMovies/LoginViewController.swift:109-115 | re-enables the UI and shows the step's failure |
| LoginController.LoginViewController.LoginPressed | MyFavoriteMovies/LoginViewController.swift:51-74 | moves the screen and app delegate as `Press` says and keeps the invariant |
| LoginController.LoginViewController.GetRequestToken | MyFavoriteMovies/LoginViewController.swift:87-98 | resumes the token request with the api key |
| LoginController.LoginViewController.RequestTokenCompleted | MyFavoriteMovies/LoginViewController.swift:101-158 | updates fields and app delegate exactly as `TokenReceived` says |
| LoginController.LoginViewController.LoginWithToken | MyFavoriteMovies/LoginViewController.swift:164-186 | resumes validate-with-login with api key, username, password and the token passed in |
| LoginController.LoginViewController.LoginWithTokenCompleted | MyFavoriteMovies/LoginViewController.swift:192-253 | updates fields and app delegate exactly as `ValidateReceived` says, passing on the stored token |
| LoginController.LoginViewController.GetSessionID | MyFavoriteMovies/LoginViewController.swift:258-277 | resumes the session request with api key and the token passed in |
| LoginController.LoginViewController.SessionIDCompleted | MyFavoriteMovies/LoginViewController.swift:280-334 | updates fields and app delegate exactly as `SessionReceived` says |
| LoginController.LoginViewController.GetUserID | MyFavoriteMovies/LoginViewController.swift:339-357 | resumes the account request with the session id stored on the app delegate, not the parameter |
| LoginController.LoginViewController.UserIDCompleted | MyFavoriteMovies/LoginViewController.swift:360-415 | updates fields and app delegate exactly as `AccountReceived` says |
| LoginController.LoginViewController.CompleteLogin | MyFavoriteMovies/LoginViewController.swift:76-83 | clears the label, enables the UI and presents the movies screen |
| LoginController.LogIn | MyFavoriteMovies/LoginViewController.swift:60-72 | a tap and four accepted responses leave the user logged in with the credentials those responses carried, the fields as typed, a blank label, and exactly the token, validate, session and account requests resumed in that order |
| MovieDetail.AppearanceRequests | MyFavoriteMovies/MovieDetailViewController.swift:37-169 | no movie, no request; otherwise exactly one favorites request first, and one poster request after it exactly when the movie has a poster path |
| MovieDetail.FavoritesFetched | MyFavoriteMovies/MovieDetailViewController.swift:59-101 | a favorites response yields movies exactly when there is no error, the status is 2xx, the body is an object with no numeric `status_code`, and `results` is a list of objects |
| MovieDetail.ToggleAccepted | MyFavoriteMovies/MovieDetailViewController.swift:243-249 | favoriting accepts codes 1 and 12 only, unfavoriting 13 only |
| MovieDetail.ValidateToggle | MyFavoriteMovies/MovieDetailViewController.swift:210-249 | the toggle chain stops at its first failing guard; it rejects a body without a numeric `status_code` and accepts only a code the rule allows for the direction |
| MovieDetail.Toggled | MyFavoriteMovies/MovieDetailViewController.swift:175-254 | after a toggle the flag differs from before exactly when the reply to the request for the opposite state is accepted |
| MovieDetail.TogglesCancel | MyFavoriteMovies/MovieDetailViewController.swift:175-254 | two accepted toggles restore the flag |
| MovieDetail.MovieDetailViewController.constructor | MyFavoriteMovies/MovieDetailViewController.swift:17-19 | the flag starts false |
| MovieDetail.MovieDetailViewController.ViewWillAppear | MyFavoriteMovies/MovieDetailViewController.swift:37-169 | resumes exactly the requests `AppearanceRequests` lists; with no movie, nothing |
| MovieDetail.MovieDetailViewController.FavoritesCompleted | MyFavoriteMovies/MovieDetailViewController.swift:59-113 | after a response that passes every guard, `isFavorite` is true exactly when some listed movie has the shown movie's id; otherwise it is unchanged |
| MovieDetail.MovieDetailViewController.ToggleFavorite | MyFavoriteMovies/MovieDetailViewController.swift:173-210 | requests the negation of the current state, with a body of media type, media id and `favorite = shouldFavorite` |
| MovieDetail.MovieDetailViewController.ToggleFavoriteCompleted | MyFavoriteMovies/MovieDetailViewController.swift:210-261 | `isFavorite := shouldFavorite` on acceptance; unchanged on any rejection |
| MovieDetail.TapHeart | MyFavoriteMovies/MovieDetailViewController.swift:173-266 | a tap answered by a response resumes exactly one POST asking for the opposite state and leaves the flag as `Toggled` says; nothing else changes |

## Left out

- Asynchronous networking and threading. Data tasks, `resume` and
  `performUIUpdatesOnMain` are not modelled. Each completion is a method call
  that receives an abstract response, in the order the responses are given.
- JSON decoding. The decoded body is an input.
- Swift's bridging of NSNumber between booleans and numbers is not modelled.
  JSON `true` is never an `Int`, and no number is ever a `Bool`.
- Integers outside Swift's 64-bit `Int` range are not modelled. `JInt` holds any
  integer, and a cast to `Int` reads it unchanged.
- Crashes. A forced cast of a body that is not a JSON object traps, and so does
  the unwrap in loginWithToken. These are the `Trapped` outcome of the guard
  chain. The handler methods require that the response does not trap, because
  no state follows a crash. The forced unwraps of the session id, the user id
  and the movie are preconditions of the methods that perform them.
- LoginController.LoginViewController.LoginPressed: it is not modelled for a tap
  while the UI is disabled, because a disabled button delivers no tap.
- The URL builder `tmdbURLFromParameters` and the constants file are not part of
  this model. A request is the path and the query parameters it is built from.
  JSON keys use TheMovieDB's documented names. The api key is a constant of the
  app delegate.
- Request headers (`Accept`, `Content-Type`) are not modelled.
- `Movie.moviesFromResults` is not part of this model. It is a function
  parameter from the list of result objects to movies.
- UIKit presentation. This covers gradients, text-field styling, button alpha,
  the favorite button's tint, the title label, the default poster, and
  decoding and showing the poster image. Of the poster download, only the
  request is modelled.
- Keyboard handling, tap-to-dismiss, and notification subscriptions. These are
  UI geometry and event plumbing.
- Debug output. Console prints are not modelled, and label texts are tags,
  except for the empty-field message.
