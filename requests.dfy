/**
 * The requests the two view controllers hand to the app delegate's shared
 * URL session, and the app delegate's session state.
 *
 * The URL builder (`tmdbURLFromParameters`) and the constants file are not
 * part of this model: a request is kept as the path extension and the query
 * parameters it is built from.
 */
module Requests {
  import opened Wrappers

  /** The query parameter keys the controllers use. */
  datatype Param = ApiKey | Username | Password | RequestToken | SessionID

  datatype HttpMethod = Get | Post

  /** The JSON body of the mark-as-favorite POST. */
  datatype FavoriteBody = FavoriteBody(mediaType: string, mediaID: int, favorite: bool)

  datatype Request =
    | Api(httpMethod: HttpMethod, path: string, query: map<Param, string>, body: Option<FavoriteBody>)
    | PosterImage(size: string, posterPath: string)   // relative to the configured image base URL

  const TokenPath := "/authentication/token/new"
  const ValidatePath := "/authentication/token/validate_with_login"
  const SessionPath := "/authentication/session/new"
  const AccountPath := "/account"

  /** TheMovieDB's media type for a movie. */
  const MovieMediaType := "movie"

  /** The poster size the detail screen asks for. */
  const PosterSize := "w342"

  function TokenRequest(apiKey: string): Request {
    Api(Get, TokenPath, map[ApiKey := apiKey], None)
  }

  function ValidateRequest(apiKey: string, username: string, password: string, token: string): Request {
    Api(Get, ValidatePath,
        map[ApiKey := apiKey, Username := username, Password := password, RequestToken := token], None)
  }

  function SessionRequest(apiKey: string, token: string): Request {
    Api(Get, SessionPath, map[ApiKey := apiKey, RequestToken := token], None)
  }

  function AccountRequest(apiKey: string, sessionID: string): Request {
    Api(Get, AccountPath, map[ApiKey := apiKey, SessionID := sessionID], None)
  }

  /** The list of the account's favorite movies. */
  function FavoritesRequest(apiKey: string, sessionID: string, userID: int): Request {
    Api(Get, "/account/" + Decimal(userID) + "/favorite/movies",
        map[ApiKey := apiKey, SessionID := sessionID], None)
  }

  /**
   * The mark-as-favorite POST. The path is kept exactly as the source spells
   * it: no leading slash and a stray closing parenthesis.
   */
  function MarkFavoriteRequest(apiKey: string, sessionID: string, userID: int, movieID: int, favorite: bool): Request {
    Api(Post, "account/" + Decimal(userID) + "/favorite)",
        map[ApiKey := apiKey, SessionID := sessionID],
        Some(FavoriteBody(MovieMediaType, movieID, favorite)))
  }

  function DigitChar(d: nat): char
    requires d < 10
  {
    "0123456789"[d]
  }

  function Digits(n: nat): string
    decreases n
  {
    if n < 10 then [DigitChar(n)] else Digits(n / 10) + [DigitChar(n % 10)]
  }

  /** String interpolation of an Int. */
  function Decimal(i: int): string {
    if i < 0 then "-" + Digits(-i) else Digits(i)
  }

  /**
   * The app-wide object both controllers share: the credentials the login
   * handshake stores, and the tasks resumed on its shared URL session, in the
   * order they were resumed.
   */
  class AppDelegate {
    const apiKey: string
    var requestToken: Option<string>
    var sessionID: Option<string>
    var userID: Option<int>
    var sent: seq<Request>

    constructor (apiKey: string)
      ensures this.apiKey == apiKey
      ensures requestToken.None? && sessionID.None? && userID.None?
      ensures sent == []
    {
      this.apiKey := apiKey;
      requestToken, sessionID, userID := None, None, None;
      sent := [];
    }
  }
}
