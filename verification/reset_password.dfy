/** The page a password-reset e-mail links to. Without a token in the link
    it shows only an error; with one, it checks the two fields (matching,
    then at least six characters), sends the token and the new password, and
    accepts a reply only when its content type declares JSON. */
module ResetPassword {
  import opened Common

  const MinLength := 6
  const Mismatch := "Passwords do not match"
  const TooShort := "Password must be at least 6 characters"
  const NotJson := "Server returned unexpected response (not JSON)"
  const ResetFailed := "Failed to reset password"
  const JsonType := "application/json"
  const HomePath := "/"

  /** Body `{token, new_password}`. */
  datatype ResetRequest = ResetRequest(token: string, newPassword: string)

  /** What the page shows: the invalid-link notice, the success notice, or the form. */
  datatype Screen = InvalidLink | Succeeded | Form

  /** How the reply to the reset request ends the submit. The content type
      is checked before anything else of the reply; a JSON reply then fails
      on a parse error or a non-2xx status. */
  function ResetOutcome(reply: Response<()>): (o: Outcome<()>)
    ensures o.Success? <==> reply.Ok() && IndexOf(reply.contentType, JsonType) != -1 && reply.body.Json?
    ensures reply.Failed? ==> o == Failure(reply.message)
    ensures reply.Received? && IndexOf(reply.contentType, JsonType) == -1 ==> o == Failure(NotJson)
    ensures reply.Received? && IndexOf(reply.contentType, JsonType) != -1 ==>
              o == JsonThenCheck(reply, ResetFailed)
  {
    if reply.Received? && IndexOf(reply.contentType, JsonType) == -1 then Failure(NotJson)
    else JsonThenCheck(reply, ResetFailed)
  }

  /** A reply without a content type is never accepted, whatever its status. */
  lemma MissingContentTypeFails(status: nat, statusText: string, body: Body<()>)
    ensures ResetOutcome(Received(status, statusText, "", body)) == Failure(NotJson)
  {
  }

  /** A declared type that merely contains the JSON type (with a charset
      parameter, say) is accepted like the bare type. */
  lemma CharsetParameterAccepted(status: nat, statusText: string, suffix: string, body: Body<()>)
    ensures ResetOutcome(Received(status, statusText, JsonType + suffix, body))
         == JsonThenCheck(Received(status, statusText, JsonType + suffix, body), ResetFailed)
  {
  }

  class ResetPasswordForm {
    /** The link's `token` parameter; `""` when missing (both are falsy). */
    const token: string
    var password: string
    var confirmPassword: string
    var loading: bool
    var error: Option<string>
    var success: bool
    var pending: Option<ResetRequest>
    var redirectScheduled: bool
    /** Where the router was sent, if anywhere. */
    var location: Option<string>

    ghost predicate Valid()
      reads this
    {
      && (loading <==> pending.Some?)
      && (pending.Some? ==> pending.value.token == token && token != "")
      && (redirectScheduled ==> success)
    }

    function Shown(): (s: Screen)
      reads this
      ensures s == InvalidLink <==> token == ""
      ensures s == Succeeded <==> token != "" && success
    {
      if token == "" then InvalidLink else if success then Succeeded else Form
    }

    constructor (linkToken: string)
      ensures Valid() && token == linkToken && password == "" && confirmPassword == ""
      ensures !loading && error == None && !success && pending == None
      ensures !redirectScheduled && location == None
    {
      token := linkToken;
      password, confirmPassword := "", "";
      loading, error, success, pending := false, None, false, None;
      redirectScheduled, location := false, None;
    }

    method Edit(newPassword: string, confirmation: string)
      requires Shown() == Form
      modifies this`password, this`confirmPassword
      ensures password == newPassword && confirmPassword == confirmation
    {
      password, confirmPassword := newPassword, confirmation;
    }

    /** Submitting the form, which is shown only with a token and before
        success. The browser submits only with both fields filled in, and the
        button is disabled while loading. */
    method Submit() returns (req: Option<ResetRequest>)
      requires Valid() && Shown() == Form && !loading
      requires password != "" && confirmPassword != ""
      modifies this`error, this`loading, this`pending
      ensures Valid()
      ensures var problem := PasswordProblem(password, confirmPassword, MinLength, Mismatch, TooShort);
              && (problem.Some? ==> req == None && error == problem && !loading)
              && (problem.None? ==>
                    req == Some(ResetRequest(token, password)) && pending == req
                    && loading && error == None)
    {
      error := None;
      var problem := PasswordProblem(password, confirmPassword, MinLength, Mismatch, TooShort);
      if problem.Some? {
        error := problem;
        return None;
      }
      loading := true;
      req := Some(ResetRequest(token, password));
      pending := req;
    }

    /** The reply. Success switches to the success notice and schedules the
        redirect home; any failure shows its message and keeps the form. */
    method Complete(reply: Response<()>)
      requires Valid() && pending.Some?
      modifies this`loading, this`pending, this`error, this`success, this`redirectScheduled
      ensures Valid() && !loading && pending == None
      ensures var o := ResetOutcome(reply);
              && (o.Success? ==> success && redirectScheduled && error == old(error))
              && (o.Failure? ==>
                    error == Some(o.message) && success == old(success)
                    && redirectScheduled == old(redirectScheduled))
    {
      pending, loading := None, false;
      match ResetOutcome(reply)
      case Success(_) =>
        success, redirectScheduled := true, true;
      case Failure(m) =>
        error := Some(m);
    }

    /** Three seconds after success the router goes to the home page. */
    method RedirectTimerFires()
      requires Valid() && redirectScheduled
      modifies this`location, this`redirectScheduled
      ensures Valid() && location == Some(HomePath) && !redirectScheduled
    {
      location, redirectScheduled := Some(HomePath), false;
    }
  }

  /** A link with a token: an HTML error page is refused with the fixed
      message; a JSON 2xx reply succeeds and ends at the home page. */
  method ResetScenario(token: string, pw: string, htmlPage: Body<()>)
    requires token != "" && |pw| >= MinLength
  {
    var form := new ResetPasswordForm(token);
    assert form.Shown() == Form;
    form.Edit(pw, pw);
    var req := form.Submit();
    assert req == Some(ResetRequest(token, pw));
    MissingContentTypeFails(404, "Not Found", htmlPage);
    form.Complete(Received(404, "Not Found", "", htmlPage));
    assert form.error == Some(NotJson) && form.Shown() == Form;

    req := form.Submit();
    CharsetParameterAccepted(200, "OK", "; charset=utf-8", Json("", ()));
    form.Complete(Received(200, "OK", JsonType + "; charset=utf-8", Json("", ())));
    assert form.Shown() == Succeeded;
    form.RedirectTimerFires();
    assert form.location == Some(HomePath);
  }
}
