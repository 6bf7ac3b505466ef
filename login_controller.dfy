/**
 * The login view controller as an object whose methods update its fields and
 * the shared app delegate step by step. Each completion handler is a method
 * that receives the response its data task delivered; each method is proved
 * against the matching transition function of `LoginFlow`.
 */
module LoginController {
  import opened Wrappers
  import opened TmdbResponse
  import opened Requests
  import opened LoginFlow

  class LoginViewController {
    const app: AppDelegate

    /** The text fields' contents; they cannot change while the UI is disabled. */
    var username: string
    var password: string
    /** The enabled flag `setUIEnabled` gives the fields, the button and the label. */
    var uiEnabled: bool
    var message: Label
    /** The step whose data task has been resumed and has not completed. */
    var pending: Option<Step>
    var presented: bool

    /** The screen and the app delegate as one value. */
    ghost function Snapshot(): Login
      reads this, app
    {
      Login(app.apiKey, Credentials(app.requestToken, app.sessionID, app.userID), app.sent,
            username, password, uiEnabled, message, pending, presented)
    }

    ghost predicate Valid()
      reads this, app
    {
      Inv(Snapshot())
    }

    /** viewDidLoad: the screen starts enabled, with nothing in flight. */
    constructor (app: AppDelegate)
      ensures this.app == app && Valid()
      ensures uiEnabled && message == Blank && pending.None? && !presented
      ensures username == "" && password == ""
    {
      this.app := app;
      username, password := "", "";
      uiEnabled, message, pending, presented := true, Blank, None, false;
    }

    /** The enabled flag and the cleared label of setUIEnabled. */
    method SetUIEnabled(enabled: bool)
      modifies this`uiEnabled, this`message
      ensures uiEnabled == enabled && message == Blank
    {
      uiEnabled := enabled;
      message := Blank;
    }

    /** The UI part of a step's displayError. */
    method DisplayError(step: Step)
      modifies this`uiEnabled, this`message
      ensures uiEnabled && message == LoginFailed(step)
    {
      SetUIEnabled(true);
      message := LoginFailed(step);
    }

    /** The login button, tapped while the fields hold `username` and `password`. */
    method LoginPressed(username: string, password: string)
      requires Valid() && uiEnabled
      modifies this, app
      ensures Valid() && Snapshot() == Press(old(Snapshot()), username, password)
    {
      this.username, this.password := username, password;
      if username == "" || password == "" {
        message := Notice(EmptyFieldsMessage);
      } else {
        SetUIEnabled(false);
        GetRequestToken();
      }
    }

    /** Resumes step 1's data task. */
    method GetRequestToken()
      modifies app`sent, this`pending
      ensures app.sent == old(app.sent) + [TokenRequest(app.apiKey)]
      ensures pending == Some(TokenStep)
    {
      app.sent := app.sent + [TokenRequest(app.apiKey)];
      pending := Some(TokenStep);
    }

    /** Step 1's completion handler. */
    method RequestTokenCompleted(r: Response)
      requires Valid() && pending == Some(TokenStep) && !Receive(r).Trapped?
      modifies this, app
      ensures Valid() && Snapshot() == TokenReceived(old(Snapshot()), r)
    {
      pending := None;
      var o := Validate(r, RequestTokenField);
      if o == Rejected(TransportError) {
        message := UrlError;
        return;
      }
      if !o.Accepted? {
        DisplayError(TokenStep);
        return;
      }
      app.requestToken := Some(o.value.s);
      LoginWithToken(app.requestToken.value);
    }

    /** Resumes step 2's data task, with the fields' contents and the token passed in. */
    method LoginWithToken(requestToken: string)
      modifies app`sent, this`pending
      ensures app.sent == old(app.sent) + [ValidateRequest(app.apiKey, username, password, requestToken)]
      ensures pending == Some(ValidateStep)
    {
      app.sent := app.sent + [ValidateRequest(app.apiKey, username, password, requestToken)];
      pending := Some(ValidateStep);
    }

    /** Step 2's completion handler: it goes on with the stored token. */
    method LoginWithTokenCompleted(r: Response)
      requires Valid() && pending == Some(ValidateStep) && !Receive(r).Trapped?
      modifies this, app
      ensures Valid() && Snapshot() == ValidateReceived(old(Snapshot()), r)
    {
      pending := None;
      var o := Validate(r, SuccessFlag);
      if !o.Accepted? {
        DisplayError(ValidateStep);
        return;
      }
      GetSessionID(app.requestToken.value);
    }

    /** Resumes step 3's data task with the token passed in. */
    method GetSessionID(requestToken: string)
      modifies app`sent, this`pending
      ensures app.sent == old(app.sent) + [SessionRequest(app.apiKey, requestToken)]
      ensures pending == Some(SessionStep)
    {
      app.sent := app.sent + [SessionRequest(app.apiKey, requestToken)];
      pending := Some(SessionStep);
    }

    /** Step 3's completion handler. A missing session id is only logged. */
    method SessionIDCompleted(r: Response)
      requires Valid() && pending == Some(SessionStep) && !Receive(r).Trapped?
      modifies this, app
      ensures Valid() && Snapshot() == SessionReceived(old(Snapshot()), r)
    {
      pending := None;
      var o := Validate(r, SessionIDField);
      if o.Rejected? && o.failure.MissingField? {
        return;
      }
      if !o.Accepted? {
        DisplayError(SessionStep);
        return;
      }
      app.sessionID := Some(o.value.s);
      GetUserID(app.sessionID.value);
    }

    /**
     * Resumes step 4's data task. The query carries the session id stored on
     * the app delegate; the parameter is not read.
     */
    method GetUserID(sessionID: string)
      requires app.sessionID.Some?
      modifies app`sent, this`pending
      ensures app.sent == old(app.sent) + [AccountRequest(app.apiKey, app.sessionID.value)]
      ensures pending == Some(AccountStep)
    {
      app.sent := app.sent + [AccountRequest(app.apiKey, app.sessionID.value)];
      pending := Some(AccountStep);
    }

    /** Step 4's completion handler. A body that is not JSON is only logged. */
    method UserIDCompleted(r: Response)
      requires Valid() && pending == Some(AccountStep) && !Receive(r).Trapped?
      modifies this, app
      ensures Valid() && Snapshot() == AccountReceived(old(Snapshot()), r)
    {
      pending := None;
      var o := Validate(r, UserIDField);
      if o == Rejected(NotJson) {
        return;
      }
      if !o.Accepted? {
        DisplayError(AccountStep);
        return;
      }
      app.userID := Some(o.value.n);
      CompleteLogin();
    }

    /** Clears the label, enables the UI and presents the movies screen. */
    method CompleteLogin()
      modifies this`uiEnabled, this`message, this`presented
      ensures uiEnabled && message == Blank && presented
    {
      message := Blank;
      SetUIEnabled(true);
      presented := true;
    }
  }

  /**
   * A client of the controller: a tap with both fields filled followed by four
   * accepted responses logs the user in, with the credentials the responses
   * carried stored on the app delegate and the four handshake requests
   * resumed in order.
   */
  method LogIn(c: LoginViewController, username: string, password: string,
               r1: Response, r2: Response, r3: Response, r4: Response)
    requires c.Valid() && c.uiEnabled && username != "" && password != ""
    requires Validate(r1, RequestTokenField).Accepted? && Validate(r2, SuccessFlag).Accepted?
    requires Validate(r3, SessionIDField).Accepted? && Validate(r4, UserIDField).Accepted?
    modifies c, c.app
    ensures c.Valid() && c.presented && c.uiEnabled && c.message == Blank && c.pending.None?
    ensures c.username == username && c.password == password
    ensures c.app.requestToken == Some(Validate(r1, RequestTokenField).value.s)
    ensures c.app.sessionID == Some(Validate(r3, SessionIDField).value.s)
    ensures c.app.userID == Some(Validate(r4, UserIDField).value.n)
    ensures var token := Validate(r1, RequestTokenField).value.s;
      c.app.sent == old(c.app.sent) +
        [ TokenRequest(c.app.apiKey), ValidateRequest(c.app.apiKey, username, password, token),
          SessionRequest(c.app.apiKey, token), AccountRequest(c.app.apiKey, Validate(r3, SessionIDField).value.s) ]
  {
    c.LoginPressed(username, password);
    TokenAccepted(c.Snapshot(), r1, Validate(r1, RequestTokenField).value.s);
    c.RequestTokenCompleted(r1);
    ValidateAccepted(c.Snapshot(), r2);
    c.LoginWithTokenCompleted(r2);
    SessionAccepted(c.Snapshot(), r3, Validate(r3, SessionIDField).value.s);
    c.SessionIDCompleted(r3);
    AccountAccepted(c.Snapshot(), r4, Validate(r4, UserIDField).value.n);
    c.UserIDCompleted(r4);
  }
}
