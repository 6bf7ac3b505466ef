/**
 * The login screen's handshake with TheMovieDB, as a transition system over
 * snapshots of the screen and the app delegate.
 *
 * Pressing Login with both fields filled disables the UI and starts step 1.
 * Each step's completion handler runs the guard chain over its response; when
 * it passes, the handler stores the step's credential on the app delegate and
 * only then starts the next step. When it fails, the handshake stops and
 * nothing already stored is rolled back. Most failures re-enable the UI through
 * `displayError`; three do not.
 */
module LoginFlow {
  import opened Wrappers
  import opened TmdbResponse
  import opened Requests

  datatype Step = TokenStep | ValidateStep | SessionStep | AccountStep

  /** The position of a step in the handshake. */
  function Index(step: Step): nat {
    match step
    case TokenStep => 0
    case ValidateStep => 1
    case SessionStep => 2
    case AccountStep => 3
  }

  /** What the debug label shows. Only the empty-field message is kept as text. */
  datatype Label =
    | Blank
    | Notice(text: string)
    | UrlError                 // step 1's transport error: the request URL is shown
    | LoginFailed(step: Step)  // a displayError path of that step

  const EmptyFieldsMessage := "Username or Password Empty."

  /** The session state the handshake stores on the app delegate. */
  datatype Credentials = Credentials(requestToken: Option<string>, sessionID: Option<string>, userID: Option<int>)

  /**
   * A snapshot of the login screen and the app delegate. `pending` is the step
   * whose request is in flight, if any; `presented` records that the movies
   * tab bar controller has been presented.
   */
  datatype Login = Login(
    apiKey: string,
    creds: Credentials,
    sent: seq<Request>,
    username: string,
    password: string,
    uiEnabled: bool,
    message: Label,
    pending: Option<Step>,
    presented: bool)

  /**
   * While a request is in flight the UI is disabled, and the validate step's
   * handler has a stored request token to pass on.
   */
  predicate Inv(s: Login) {
    && (s.pending.Some? ==> !s.uiEnabled)
    && (s.pending == Some(ValidateStep) ==> s.creds.requestToken.Some?)
  }

  /** The handshake stuck: nothing in flight and the login button disabled for good. */
  predicate Stuck(s: Login) {
    s.pending.None? && !s.uiEnabled
  }

  /** `setUIEnabled(true)` followed by the step's failure message. */
  function DisplayError(s: Login, step: Step): Login {
    s.(uiEnabled := true, message := LoginFailed(step), pending := None)
  }

  /**
   * `loginPressed` with the text fields holding `username` and `password`. The
   * button delivers the tap only while the UI is enabled.
   */
  function Press(s: Login, username: string, password: string): (t: Login)
    requires Inv(s) && s.uiEnabled
    ensures Inv(t) && t.creds == s.creds && t.presented == s.presented && t.apiKey == s.apiKey
    ensures t.username == username && t.password == password
    ensures username == "" || password == "" <==> t.sent == s.sent
    ensures username == "" || password == "" ==>
              t.message == Notice(EmptyFieldsMessage) && t.uiEnabled && t.pending.None?
    ensures username != "" && password != "" ==>
              && !t.uiEnabled && t.message == Blank
              && t.pending == Some(TokenStep)
              && t.sent == s.sent + [TokenRequest(s.apiKey)]
  {
    var s := s.(username := username, password := password);
    if username == "" || password == "" then
      s.(message := Notice(EmptyFieldsMessage))
    else
      s.(uiEnabled := false, message := Blank, sent := s.sent + [TokenRequest(s.apiKey)], pending := Some(TokenStep))
  }

  /** getRequestToken's completion handler. */
  function TokenReceived(s: Login, r: Response): (t: Login)
    requires Inv(s) && s.pending == Some(TokenStep) && !Receive(r).Trapped?
    ensures Inv(t)
    ensures t.pending.Some? <==> Validate(r, RequestTokenField).Accepted?
    ensures t.pending.Some? ==>
              && t.pending == Some(ValidateStep)
              && t.creds == s.creds.(requestToken := Some(Validate(r, RequestTokenField).value.s))
              && t.sent == s.sent + [ValidateRequest(s.apiKey, s.username, s.password, t.creds.requestToken.value)]
    ensures t.pending.None? ==> t.creds == s.creds && t.sent == s.sent
    ensures t.pending.None? ==> (t.uiEnabled <==> !r.error)
  {
    var o := Validate(r, RequestTokenField);
    if o.Accepted? then
      var token := o.value.s;
      s.(creds := s.creds.(requestToken := Some(token)),
         sent := s.sent + [ValidateRequest(s.apiKey, s.username, s.password, token)],
         pending := Some(ValidateStep))
    else if o.failure == TransportError then
      s.(message := UrlError, pending := None)
    else
      DisplayError(s, TokenStep)
  }

  /** loginWithToken's completion handler: it passes on the stored token. */
  function ValidateReceived(s: Login, r: Response): (t: Login)
    requires Inv(s) && s.pending == Some(ValidateStep) && !Receive(r).Trapped?
    ensures Inv(t) && t.creds == s.creds
    ensures t.pending.Some? <==> Validate(r, SuccessFlag).Accepted?
    ensures t.pending.Some? ==>
              t.pending == Some(SessionStep) && t.sent == s.sent + [SessionRequest(s.apiKey, s.creds.requestToken.value)]
    ensures t.pending.None? ==> t.sent == s.sent && t.uiEnabled
  {
    if Validate(r, SuccessFlag).Accepted? then
      s.(sent := s.sent + [SessionRequest(s.apiKey, s.creds.requestToken.value)], pending := Some(SessionStep))
    else
      DisplayError(s, ValidateStep)
  }

  /** getSessionID's completion handler. A missing session id is only logged. */
  function SessionReceived(s: Login, r: Response): (t: Login)
    requires Inv(s) && s.pending == Some(SessionStep) && !Receive(r).Trapped?
    ensures Inv(t)
    ensures t.pending.Some? <==> Validate(r, SessionIDField).Accepted?
    ensures t.pending.Some? ==>
              && t.pending == Some(AccountStep)
              && t.creds == s.creds.(sessionID := Some(Validate(r, SessionIDField).value.s))
              && t.sent == s.sent + [AccountRequest(s.apiKey, t.creds.sessionID.value)]
    ensures t.pending.None? ==> t.creds == s.creds && t.sent == s.sent
    ensures t.pending.None? ==> (t.uiEnabled <==> !Validate(r, SessionIDField).failure.MissingField?)
  {
    var o := Validate(r, SessionIDField);
    if o.Accepted? then
      var sessionID := o.value.s;
      s.(creds := s.creds.(sessionID := Some(sessionID)),
         sent := s.sent + [AccountRequest(s.apiKey, sessionID)],
         pending := Some(AccountStep))
    else if o.failure.MissingField? then
      s.(pending := None)
    else
      DisplayError(s, SessionStep)
  }

  /** getUserID's completion handler. A body that is not JSON is only logged. */
  function AccountReceived(s: Login, r: Response): (t: Login)
    requires Inv(s) && s.pending == Some(AccountStep) && !Receive(r).Trapped?
    ensures Inv(t) && t.pending.None? && t.sent == s.sent
    ensures t.presented <==> s.presented || Validate(r, UserIDField).Accepted?
    ensures Validate(r, UserIDField).Accepted? ==>
              && t.creds == s.creds.(userID := Some(Validate(r, UserIDField).value.n))
              && t.uiEnabled && t.message == Blank
    ensures !Validate(r, UserIDField).Accepted? ==>
              t.creds == s.creds && (t.uiEnabled <==> Validate(r, UserIDField) != Rejected(NotJson))
  {
    var o := Validate(r, UserIDField);
    if o.Accepted? then
      s.(creds := s.creds.(userID := Some(o.value.n)),
         uiEnabled := true, message := Blank, pending := None, presented := true)
    else if o == Rejected(NotJson) then
      s.(pending := None)
    else
      DisplayError(s, AccountStep)
  }

  /** The completion handler of whichever step is in flight. */
  function Deliver(s: Login, r: Response): (t: Login)
    requires Inv(s) && s.pending.Some? && !Receive(r).Trapped?
    ensures Inv(t)
    ensures t.apiKey == s.apiKey && t.username == s.username && t.password == s.password
    ensures |s.sent| <= |t.sent| <= |s.sent| + 1 && t.sent[..|s.sent|] == s.sent
  {
    match s.pending.value
    case TokenStep => TokenReceived(s, r)
    case ValidateStep => ValidateReceived(s, r)
    case SessionStep => SessionReceived(s, r)
    case AccountStep => AccountReceived(s, r)
  }

  /**
   * Feeds the responses, in order, to the handlers of the requests in flight,
   * until nothing is in flight or the responses run out.
   */
  function Run(s: Login, rs: seq<Response>): (t: Login)
    requires Inv(s) && NoTraps(rs)
    ensures Inv(t)
    ensures t.apiKey == s.apiKey && t.username == s.username && t.password == s.password
    ensures |s.sent| <= |t.sent| <= |s.sent| + |rs| && t.sent[..|s.sent|] == s.sent
    decreases |rs|
  {
    if s.pending.None? || rs == [] then s
    else
      assert NoTraps(rs[1..]) by {
        forall i | 0 <= i < |rs[1..]| ensures !Receive(rs[1..][i]).Trapped? {
          assert rs[1..][i] == rs[i + 1];
        }
      }
      Run(Deliver(s, rs[0]), rs[1..])
  }

  /**
   * The four requests of one handshake, in order, for the fields `username`
   * and `password` and the credentials the handshake stored.
   */
  function Handshake(apiKey: string, username: string, password: string, c: Credentials): seq<Request> {
    var token := c.requestToken.GetOr("");
    [ TokenRequest(apiKey),
      ValidateRequest(apiKey, username, password, token),
      SessionRequest(apiKey, token),
      AccountRequest(apiKey, c.sessionID.GetOr("")) ]
  }

  /**
   * How far a handshake started from `s0` has got in `t`: the requests it
   * resumed are the first n of `Handshake`, each credential is the one stored
   * by its step once that step passed and the one from before otherwise, and
   * a request in flight is the n-th.
   */
  ghost predicate Progressed(s0: Login, t: Login) {
    var n := |t.sent| - |s0.sent|;
    && 1 <= n <= 4
    && t.sent[..|s0.sent|] == s0.sent
    && t.sent[|s0.sent|..] == Handshake(t.apiKey, t.username, t.password, t.creds)[..n]
    && (n >= 2 ==> t.creds.requestToken.Some?)
    && (n == 4 ==> t.creds.sessionID.Some?)
    && (n == 1 ==> t.creds.requestToken == s0.creds.requestToken)
    && (n < 4 ==> t.creds.sessionID == s0.creds.sessionID)
    && (t.presented ==> n == 4 && t.creds.userID.Some?)
    && (!t.presented ==> t.creds.userID == s0.creds.userID)
    && (t.pending.Some? ==> n == Index(t.pending.value) + 1)
  }

  lemma SentAfterOne(base: seq<Request>, log: seq<Request>, x: Request)
    requires |base| <= |log|
    ensures (log + [x])[..|base|] == log[..|base|]
    ensures (log + [x])[|base|..] == log[|base|..] + [x]
  {
  }

  /** One handler keeps the handshake on its course. */
  lemma {:induction false} DeliverProgresses(s0: Login, s: Login, r: Response)
    requires Inv(s) && s.pending.Some? && !Receive(r).Trapped?
    requires Progressed(s0, s) && !s0.presented
    ensures Progressed(s0, Deliver(s, r))
  {
    match s.pending.value
    case TokenStep => TokenProgresses(s0, s, r);
    case ValidateStep => ValidateProgresses(s0, s, r);
    case SessionStep => SessionProgresses(s0, s, r);
    case AccountStep => AccountProgresses(s0, s, r);
  }

  /** The token handler resumes the second handshake request or nothing. */
  lemma {:induction false} TokenProgresses(s0: Login, s: Login, r: Response)
    requires Inv(s) && s.pending == Some(TokenStep) && !Receive(r).Trapped?
    requires Progressed(s0, s) && !s0.presented
    ensures Progressed(s0, TokenReceived(s, r))
  {
    var t := TokenReceived(s, r);
    var before := Handshake(s.apiKey, s.username, s.password, s.creds);
    var after := Handshake(t.apiKey, t.username, t.password, t.creds);
    assert |s.sent| - |s0.sent| == 1;
    if t.pending.Some? {
      var x := t.sent[|s.sent|];
      SentAfterOne(s0.sent, s.sent, x);
      assert after[0] == before[0] && after[1] == x;
      assert after[..2] == [after[0], after[1]] && before[..1] == [before[0]];
    } else {
      assert after == before;
    }
  }

  /** The validation handler resumes the third handshake request or nothing. */
  lemma {:induction false} ValidateProgresses(s0: Login, s: Login, r: Response)
    requires Inv(s) && s.pending == Some(ValidateStep) && !Receive(r).Trapped?
    requires Progressed(s0, s) && !s0.presented
    ensures Progressed(s0, ValidateReceived(s, r))
  {
    var t := ValidateReceived(s, r);
    var before := Handshake(s.apiKey, s.username, s.password, s.creds);
    var after := Handshake(t.apiKey, t.username, t.password, t.creds);
    assert |s.sent| - |s0.sent| == 2 && after == before;
    if t.pending.Some? {
      var x := t.sent[|s.sent|];
      SentAfterOne(s0.sent, s.sent, x);
      assert after[2] == x;
      assert after[..3] == [after[0], after[1], after[2]] && before[..2] == [before[0], before[1]];
    }
  }

  /** The session handler resumes the last handshake request or nothing. */
  lemma {:induction false} SessionProgresses(s0: Login, s: Login, r: Response)
    requires Inv(s) && s.pending == Some(SessionStep) && !Receive(r).Trapped?
    requires Progressed(s0, s) && !s0.presented
    ensures Progressed(s0, SessionReceived(s, r))
  {
    var t := SessionReceived(s, r);
    var before := Handshake(s.apiKey, s.username, s.password, s.creds);
    var after := Handshake(t.apiKey, t.username, t.password, t.creds);
    assert |s.sent| - |s0.sent| == 3;
    if t.pending.Some? {
      var x := t.sent[|s.sent|];
      SentAfterOne(s0.sent, s.sent, x);
      assert after[0] == before[0] && after[1] == before[1] && after[2] == before[2] && after[3] == x;
      assert after[..4] == [after[0], after[1], after[2], after[3]];
      assert before[..3] == [before[0], before[1], before[2]];
    } else {
      assert after == before;
    }
  }

  /** The account handler resumes nothing; it may store the user id. */
  lemma {:induction false} AccountProgresses(s0: Login, s: Login, r: Response)
    requires Inv(s) && s.pending == Some(AccountStep) && !Receive(r).Trapped?
    requires Progressed(s0, s) && !s0.presented
    ensures Progressed(s0, AccountReceived(s, r))
  {
    var t := AccountReceived(s, r);
    assert Handshake(t.apiKey, t.username, t.password, t.creds) == Handshake(s.apiKey, s.username, s.password, s.creds);
  }

  /** `Progressed` survives any number of handlers. */
  lemma {:induction false} RunProgresses(s0: Login, s: Login, rs: seq<Response>)
    requires Inv(s) && NoTraps(rs)
    requires Progressed(s0, s) && !s0.presented
    ensures Progressed(s0, Run(s, rs))
    decreases |rs|
  {
    if s.pending.Some? && rs != [] {
      DeliverProgresses(s0, s, rs[0]);
      assert NoTraps(rs[1..]) by {
        forall i | 0 <= i < |rs[1..]| ensures !Receive(rs[1..][i]).Trapped? {
          assert rs[1..][i] == rs[i + 1];
        }
      }
      RunProgresses(s0, Deliver(s, rs[0]), rs[1..]);
    }
  }

  /**
   * Whatever the responses, a handshake resumes a prefix of token, validate,
   * session, account, in that order, at most one per step. The validate
   * request carries the fields and the stored token, the session request the
   * stored token, and the account request the stored session id. A credential
   * is stored only by its own step, and a failure leaves the earlier ones as
   * they were.
   */
  lemma {:induction false} HandshakeOrder(s0: Login, username: string, password: string, rs: seq<Response>)
    requires Inv(s0) && s0.uiEnabled && !s0.presented && NoTraps(rs)
    requires username != "" && password != ""
    ensures var t := Run(Press(s0, username, password), rs);
      && Progressed(s0, t)
      && t.username == username && t.password == password
  {
    var s1 := Press(s0, username, password);
    assert s1.sent[|s0.sent|..] == [TokenRequest(s0.apiKey)];
    assert s1.sent[..|s0.sent|] == s0.sent;
    RunProgresses(s0, s1, rs);
  }

  /**
   * A handler leaves the handshake stuck exactly on the three paths that do
   * not call displayError: a transport error in step 1, a session id missing
   * from step 3's body, and a step 4 body that is not JSON.
   */
  lemma SilentFailures(s: Login, r: Response)
    requires Inv(s) && s.pending.Some? && !Receive(r).Trapped?
    ensures Stuck(Deliver(s, r)) <==>
              || (s.pending == Some(TokenStep) && r.error)
              || (s.pending == Some(SessionStep) && Validate(r, SessionIDField).Rejected?
                  && Validate(r, SessionIDField).failure == MissingField("session_id"))
              || (s.pending == Some(AccountStep) && Validate(r, UserIDField) == Rejected(NotJson))
  {
  }

  /**
   * Responses nobody waits for are ignored. With the UI disabled as well, the
   * login button (which delivers taps only while enabled) cannot start a new
   * handshake either, so a stuck screen stays stuck for good.
   */
  lemma IdleIgnoresResponses(s: Login, rs: seq<Response>)
    requires Inv(s) && NoTraps(rs) && s.pending.None?
    ensures Run(s, rs) == s
  {
  }

  /** A response that passes the transport guards and carries `body`. */
  function Ok(body: JsonObject): Response {
    Response(false, Some(200), Some(Object(body)))
  }

  /**
   * When validate_with_login fails, the handshake has resumed exactly two
   * requests: the session is never asked for, and the UI is enabled again.
   */
  lemma {:induction false} FailedValidationStopsAtTwo(s0: Login, username: string, password: string,
                                                      r1: Response, r2: Response, rest: seq<Response>)
    requires Inv(s0) && s0.uiEnabled && username != "" && password != ""
    requires NoTraps([r1, r2] + rest)
    requires Validate(r1, RequestTokenField).Accepted? && !Validate(r2, SuccessFlag).Accepted?
    ensures var t := Run(Press(s0, username, password), [r1, r2] + rest);
      var token := Validate(r1, RequestTokenField).value.s;
      && t.sent == s0.sent + [TokenRequest(s0.apiKey), ValidateRequest(s0.apiKey, username, password, token)]
      && t.creds == s0.creds.(requestToken := Some(token))
      && t.uiEnabled && t.message == LoginFailed(ValidateStep) && t.pending.None?
  {
    var rs := [r1, r2] + rest;
    var s1 := Press(s0, username, password);
    var s2 := Deliver(s1, r1);
    var s3 := Deliver(s2, r2);
    assert rs[0] == r1 && rs[1..][0] == r2 && rs[1..][1..] == rest;
    assert NoTraps(rs[1..]) by {
      forall i | 0 <= i < |rs[1..]| ensures !Receive(rs[1..][i]).Trapped? {
        assert rs[1..][i] == rs[i + 1];
      }
    }
    assert Run(s1, rs) == Run(s2, rs[1..]);
    assert Run(s2, rs[1..]) == Run(s3, rest);
    assert Run(s3, rest) == s3;
  }

  /**
   * An HTTP 500 on the first request stops the handshake there: one request
   * resumed, nothing stored, the UI enabled again.
   */
  lemma {:induction false} ServerErrorFirst(s0: Login, username: string, password: string,
                                            data: Option<Payload>, rest: seq<Response>)
    requires Inv(s0) && s0.uiEnabled && username != "" && password != ""
    requires NoTraps([Response(false, Some(500), data)] + rest)
    ensures var t := Run(Press(s0, username, password), [Response(false, Some(500), data)] + rest);
      && t.sent == s0.sent + [TokenRequest(s0.apiKey)]
      && t.creds == s0.creds
      && t.uiEnabled && t.message == LoginFailed(TokenStep) && t.pending.None?
  {
    var rs := [Response(false, Some(500), data)] + rest;
    var s1 := Press(s0, username, password);
    assert Validate(rs[0], RequestTokenField) == Rejected(StatusNot2xx(Some(500)));
    assert Run(s1, rs) == Run(Deliver(s1, rs[0]), rs[1..]);
  }

  /** Run hands the first response to the handler in flight and goes on with the rest. */
  lemma RunStep(s: Login, rs: seq<Response>)
    requires Inv(s) && NoTraps(rs) && s.pending.Some? && rs != []
    ensures NoTraps(rs[1..])
    ensures Run(s, rs) == Run(Deliver(s, rs[0]), rs[1..])
  {
    assert NoTraps(rs[1..]) by {
      forall i | 0 <= i < |rs[1..]| ensures !Receive(rs[1..][i]).Trapped? {
        assert rs[1..][i] == rs[i + 1];
      }
    }
  }

  /**
   * When all four steps pass, the user is logged in: the app delegate holds
   * the token, the session id and the user id the responses carried, the four
   * requests were resumed in order, and the movies screen is presented.
   */
  lemma {:induction false} AllStepsPass(s0: Login, username: string, password: string,
                                        r1: Response, r2: Response, r3: Response, r4: Response,
                                        token: string, sessionID: string, userID: int)
    requires Inv(s0) && s0.uiEnabled && username != "" && password != ""
    requires Validate(r1, RequestTokenField) == Accepted(Text(token))
    requires Validate(r2, SuccessFlag) == Accepted(Confirmed)
    requires Validate(r3, SessionIDField) == Accepted(Text(sessionID))
    requires Validate(r4, UserIDField) == Accepted(Number(userID))
    ensures NoTraps([r1, r2, r3, r4])
    ensures var t := Run(Press(s0, username, password), [r1, r2, r3, r4]);
      && t.creds == Credentials(Some(token), Some(sessionID), Some(userID))
      && t.presented && t.uiEnabled && t.pending.None?
      && t.sent == s0.sent + [ TokenRequest(s0.apiKey), ValidateRequest(s0.apiKey, username, password, token),
                               SessionRequest(s0.apiKey, token), AccountRequest(s0.apiKey, sessionID) ]
  {
    var rs := [r1, r2, r3, r4];
    var s1 := Press(s0, username, password);
    TokenAccepted(s1, r1, token);
    var s2 := TokenReceived(s1, r1);
    assert Deliver(s1, r1) == s2;
    ValidateAccepted(s2, r2);
    var s3 := ValidateReceived(s2, r2);
    assert Deliver(s2, r2) == s3;
    SessionAccepted(s3, r3, sessionID);
    var s4 := SessionReceived(s3, r3);
    assert Deliver(s3, r3) == s4;
    AccountAccepted(s4, r4, userID);
    assert Deliver(s4, r4) == AccountReceived(s4, r4);
    assert NoTraps(rs) by {
      assert rs[0] == r1 && rs[1] == r2 && rs[2] == r3 && rs[3] == r4;
    }
    RunFour(s1, r1, r2, r3, r4);
  }

  /** Four responses each find a handler waiting: Run hands them over one by one. */
  lemma {:induction false} RunFour(s1: Login, r1: Response, r2: Response, r3: Response, r4: Response)
    requires Inv(s1)
    requires !Receive(r1).Trapped? && !Receive(r2).Trapped? && !Receive(r3).Trapped? && !Receive(r4).Trapped?
    requires s1.pending.Some? && Deliver(s1, r1).pending.Some?
    requires Deliver(Deliver(s1, r1), r2).pending.Some?
    requires Deliver(Deliver(Deliver(s1, r1), r2), r3).pending.Some?
    ensures Run(s1, [r1, r2, r3, r4]) == Deliver(Deliver(Deliver(Deliver(s1, r1), r2), r3), r4)
  {
    var rs := [r1, r2, r3, r4];
    var s2 := Deliver(s1, r1);
    var s3 := Deliver(s2, r2);
    var s4 := Deliver(s3, r3);
    assert NoTraps(rs) by {
      assert rs[0] == r1 && rs[1] == r2 && rs[2] == r3 && rs[3] == r4;
    }
    RunStep(s1, rs);
    assert rs[1..] == [r2, r3, r4];
    RunStep(s2, [r2, r3, r4]);
    assert [r2, r3, r4][1..] == [r3, r4];
    RunStep(s3, [r3, r4]);
    assert [r3, r4][1..] == [r4];
    RunStep(s4, [r4]);
  }

  /** An accepted token response stores the token and resumes validate_with_login. */
  lemma TokenAccepted(s: Login, r: Response, token: string)
    requires Inv(s) && s.pending == Some(TokenStep) && Validate(r, RequestTokenField) == Accepted(Text(token))
    ensures !Receive(r).Trapped?
    ensures TokenReceived(s, r) == s.(creds := s.creds.(requestToken := Some(token)),
                                sent := s.sent + [ValidateRequest(s.apiKey, s.username, s.password, token)],
                                pending := Some(ValidateStep))
  {
  }

  /** An accepted validation resumes the session request with the stored token. */
  lemma ValidateAccepted(s: Login, r: Response)
    requires Inv(s) && s.pending == Some(ValidateStep) && Validate(r, SuccessFlag) == Accepted(Confirmed)
    ensures !Receive(r).Trapped?
    ensures ValidateReceived(s, r) == s.(sent := s.sent + [SessionRequest(s.apiKey, s.creds.requestToken.value)],
                                pending := Some(SessionStep))
  {
  }

  /** An accepted session response stores the session id and resumes the account request. */
  lemma SessionAccepted(s: Login, r: Response, sessionID: string)
    requires Inv(s) && s.pending == Some(SessionStep) && Validate(r, SessionIDField) == Accepted(Text(sessionID))
    ensures !Receive(r).Trapped?
    ensures SessionReceived(s, r) == s.(creds := s.creds.(sessionID := Some(sessionID)),
                                sent := s.sent + [AccountRequest(s.apiKey, sessionID)],
                                pending := Some(AccountStep))
  {
  }

  /** An accepted account response stores the user id and presents the movies screen. */
  lemma AccountAccepted(s: Login, r: Response, userID: int)
    requires Inv(s) && s.pending == Some(AccountStep) && Validate(r, UserIDField) == Accepted(Number(userID))
    ensures !Receive(r).Trapped?
    ensures AccountReceived(s, r) == s.(creds := s.creds.(userID := Some(userID)),
                                uiEnabled := true, message := Blank, pending := None, presented := true)
  {
  }

  /**
   * Four well-formed responses carrying "abc", true, "xyz" and 42 log the user
   * in with exactly those credentials.
   */
  lemma HappyPath(s0: Login)
    requires Inv(s0) && s0.uiEnabled
    ensures var rs := [ Ok(map["request_token" := JString("abc")]),
                        Ok(map["success" := JBool(true)]),
                        Ok(map["session_id" := JString("xyz")]),
                        Ok(map["id" := JInt(42)]) ];
      NoTraps(rs) &&
      var t := Run(Press(s0, "u", "p"), rs);
      && t.creds == Credentials(Some("abc"), Some("xyz"), Some(42))
      && t.presented && t.uiEnabled && t.pending.None?
  {
    OkAccepted(map["request_token" := JString("abc")], RequestTokenField, Text("abc"));
    OkAccepted(map["success" := JBool(true)], SuccessFlag, Confirmed);
    OkAccepted(map["session_id" := JString("xyz")], SessionIDField, Text("xyz"));
    OkAccepted(map["id" := JInt(42)], UserIDField, Number(42));
    AllStepsPass(s0, "u", "p", Ok(map["request_token" := JString("abc")]), Ok(map["success" := JBool(true)]),
                 Ok(map["session_id" := JString("xyz")]), Ok(map["id" := JInt(42)]), "abc", "xyz", 42);
  }

  /** A well-formed body without an in-band error yields the value of its expected key. */
  lemma OkAccepted(body: JsonObject, e: Expect, v: Value)
    requires InBandStatus(body).None? && Extract(e, body) == Some(v)
    ensures Validate(Ok(body), e) == Accepted(v)
  {
  }

  /**
   * TheMovieDB's in-band error wins over a valid-looking `success`: a body with
   * both `success: true` and `status_code: 34` fails validate_with_login.
   */
  lemma InBandErrorBeatsSuccess()
    ensures Validate(Ok(map["success" := JBool(true), StatusCodeKey := JInt(34)]), SuccessFlag)
            == Rejected(RemoteError(34))
  {
    var body := map["success" := JBool(true), StatusCodeKey := JInt(34)];
    InBandErrorWins(Ok(body), SuccessFlag, body, 34);
  }
}
