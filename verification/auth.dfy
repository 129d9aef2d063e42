/** The sign-in dialog: a machine over the views login, signup, verify and
    forgot. A submit captures the request for the current view and disables
    the button; the reply, applied later, decides the outcome. The key a
    signup returns is held by the dialog and handed to the page only once
    verification has succeeded. */
module Auth {
  import opened Common

  const AccountCreated := "Account created! Please check your email (or server console) for the verification code."

  datatype View = Login | Signup | Verify | Forgot

  /** The links under the form: login offers signup and forgot; signup offers
      login; verify and forgot offer "Back to Sign in". */
  predicate LinkShown(from: View, to: View) {
    match from
    case Login => to == Signup || to == Forgot
    case Signup => to == Login
    case Verify => to == Login
    case Forgot => to == Login
  }

  /** The request one submit sends. The verify request carries the code as
      its query parameter and the key held since signup as `X-API-Key`. */
  datatype AuthRequest =
    | ForgotRequest(email: string)
    | VerifyRequest(code: string, tempKey: string)
    | LoginRequest(email: string, password: string)
    | SignupRequest(email: string, password: string)

  /** The fields the dialog reads from a parsed reply (`""` when absent). */
  datatype AuthData = AuthData(apiKey: string, message: string)

  /** The request the submit of `view` sends, built from the form's fields. */
  function RequestFor(view: View, email: string, password: string, code: string, tempKey: string): (r: AuthRequest)
    ensures r.ForgotRequest? <==> view == Forgot
    ensures r.VerifyRequest? <==> view == Verify
    ensures r.LoginRequest? <==> view == Login
    ensures r.SignupRequest? <==> view == Signup
    ensures r.VerifyRequest? ==> r.tempKey == tempKey && r.code == code
    ensures r.LoginRequest? || r.SignupRequest? || r.ForgotRequest? ==> r.email == email
    ensures r.LoginRequest? || r.SignupRequest? ==> r.password == password
  {
    match view
    case Forgot => ForgotRequest(email)
    case Verify => VerifyRequest(code, tempKey)
    case Login => LoginRequest(email, password)
    case Signup => SignupRequest(email, password)
  }

  /** The message a failed submit shows when the server gives no detail. */
  function Fallback(req: AuthRequest): string {
    match req
    case ForgotRequest(_) => "Request failed"
    case VerifyRequest(_, _) => "Verification failed"
    case _ => "Authentication failed"
  }

  class AuthModal {
    var open: bool
    var view: View
    var email: string
    var password: string
    var verificationCode: string
    var tempApiKey: string
    var acceptedTerms: bool
    var error: Option<string>
    var message: Option<string>
    var loading: bool
    /** The request sent by the submit still awaiting its reply. */
    var pending: Option<AuthRequest>
    /** The keys handed to the page's `onSuccess`, in order. */
    var emitted: seq<string>
    /** The button is disabled exactly while a request is outstanding. */
    ghost predicate Valid()
      reads this
    {
      loading <==> pending.Some?
    }

    constructor ()
      ensures Valid() && !open && view == Login && !loading && pending == None
      ensures email == "" && password == "" && verificationCode == "" && tempApiKey == ""
      ensures !acceptedTerms && error == None && message == None && emitted == []
    {
      open, view := false, Login;
      email, password, verificationCode, tempApiKey := "", "", "", "";
      acceptedTerms := false;
      error, message, loading, pending := None, None, false, None;
      emitted := [];
    }

    /** The page opens the dialog; its state survives closing and reopening. */
    method Open()
      modifies this`open
      ensures open
    {
      open := true;
    }

    /** The close button. */
    method Close()
      modifies this`open
      ensures !open
    {
      open := false;
    }

    /** Typing into the form. */
    method Edit(newEmail: string, newPassword: string, newCode: string, terms: bool)
      requires open
      modifies this`email, this`password, this`verificationCode, this`acceptedTerms
      ensures email == newEmail && password == newPassword
      ensures verificationCode == newCode && acceptedTerms == terms
    {
      email, password, verificationCode, acceptedTerms := newEmail, newPassword, newCode, terms;
    }

    /** A link under the form. Links stay usable while a request is out. */
    method Follow(to: View)
      requires open && LinkShown(view, to)
      modifies this`view
      ensures view == to
    {
      view := to;
    }

    /** Submitting the form. The browser submits only when the required
        fields of the shown view are filled in and, on signup, the terms box
        is ticked; the button is disabled while loading. Error and message are
        cleared and the request of the current view is sent. */
    method Submit() returns (req: AuthRequest)
      requires Valid() && open && !loading
      requires view == Login || view == Signup ==> email != "" && password != ""
      requires view == Signup ==> acceptedTerms
      requires view == Forgot ==> email != ""
      requires view == Verify ==> verificationCode != ""
      modifies this`loading, this`pending, this`error, this`message
      ensures Valid() && loading && error == None && message == None
      ensures req == RequestFor(view, email, password, verificationCode, tempApiKey)
      ensures pending == Some(req)
    {
      error, message := None, None;
      loading := true;
      req := RequestFor(view, email, password, verificationCode, tempApiKey);
      pending := Some(req);
    }

    /** The reply to the outstanding request. A login or verification that
        succeeds hands its key to the page (for verify, the key held since
        signup) and closes the dialog; a signup that succeeds only stores the
        key and moves to verify; a forgot request that succeeds shows the
        server's message. Any failure shows the server's detail, or the
        branch's fallback, and changes no view and no key. */
    method Complete(reply: Response<AuthData>)
      requires Valid() && pending.Some?
      modifies this`loading, this`pending, this`error, this`message, this`open
      modifies this`view, this`tempApiKey, this`emitted
      ensures Valid() && !loading && pending == None
      ensures var req := old(pending.value);
              var o := JsonThenCheck(reply, Fallback(req));
              && (o.Failure? ==>
                    error == Some(o.message) && message == old(message) && open == old(open)
                    && view == old(view) && tempApiKey == old(tempApiKey) && emitted == old(emitted))
              && (o.Success? && req.ForgotRequest? ==>
                    error == old(error) && message == Some(o.value.message) && open == old(open)
                    && view == old(view) && tempApiKey == old(tempApiKey) && emitted == old(emitted))
              && (o.Success? && req.VerifyRequest? ==>
                    emitted == old(emitted) + [req.tempKey] && !open
                    && error == old(error) && message == old(message)
                    && view == old(view) && tempApiKey == old(tempApiKey))
              && (o.Success? && req.LoginRequest? ==>
                    emitted == old(emitted) + [o.value.apiKey] && !open
                    && error == old(error) && message == old(message)
                    && view == old(view) && tempApiKey == old(tempApiKey))
              && (o.Success? && req.SignupRequest? ==>
                    tempApiKey == o.value.apiKey && view == Verify && message == Some(AccountCreated)
                    && emitted == old(emitted) && error == old(error) && open == old(open))
    {
      var req := pending.value;
      pending, loading := None, false;
      match JsonThenCheck(reply, Fallback(req))
      case Failure(m) =>
        error := Some(m);
      case Success(d) =>
        match req
        case ForgotRequest(_) =>
          message := Some(d.message);
        case VerifyRequest(_, key) =>
          emitted := emitted + [key];
          open := false;
        case LoginRequest(_, _) =>
          emitted := emitted + [d.apiKey];
          open := false;
        case SignupRequest(_, _) =>
          tempApiKey := d.apiKey;
          view := Verify;
          message := Some(AccountCreated);
    }
  }

  /** Signup followed by verification: the signup key is not handed to the
      page; a rejected code keeps the dialog on verify with nothing handed
      over; an accepted code hands over exactly the signup key. */
  method SignupThenVerify(email: string, password: string, code: string, key: string,
                          rejected: Response<AuthData>, accepted: Response<AuthData>)
    requires email != "" && password != "" && code != ""
    requires !(rejected.Ok() && rejected.body.Json?)
    requires accepted.Ok() && accepted.body.Json?
  {
    var dialog := new AuthModal();
    dialog.Open();
    dialog.Follow(Signup);
    dialog.Edit(email, password, "", true);
    var req := dialog.Submit();
    assert req == SignupRequest(email, password);
    dialog.Complete(Received(200, "OK", "application/json", Json("", AuthData(key, ""))));
    assert dialog.view == Verify && dialog.tempApiKey == key && dialog.emitted == [];

    dialog.Edit(email, password, code, true);
    req := dialog.Submit();
    assert req == VerifyRequest(code, key);
    dialog.Complete(rejected);
    assert dialog.view == Verify && dialog.emitted == [] && dialog.error.Some?;

    req := dialog.Submit();
    assert req == VerifyRequest(code, key);
    dialog.Complete(accepted);
    assert dialog.emitted == [key] && !dialog.open;
  }
}
