/** The change-password dialog of a signed-in user: two checks before any
    request (matching confirmation, then at least eight characters), then one
    request carrying the old and new password and the page's key. */
module ChangePassword {
  import opened Common

  const MinLength := 8
  const Mismatch := "New passwords do not match"
  const TooShort := "New password must be at least 8 characters"
  const Changed := "Password changed successfully!"
  const ChangeFailed := "Failed to change password"

  /** Body `{old_password, new_password}` with the key as `X-API-Key`. */
  datatype ChangeRequest = ChangeRequest(oldPassword: string, newPassword: string, apiKey: string)

  class ChangePasswordModal {
    var open: bool
    var oldPassword: string
    var newPassword: string
    var confirmPassword: string
    var error: Option<string>
    var success: Option<string>
    var loading: bool
    var pending: Option<ChangeRequest>
    /** The delayed close that follows a success has been scheduled. */
    var closeScheduled: bool

    ghost predicate Valid()
      reads this
    {
      loading <==> pending.Some?
    }

    constructor ()
      ensures Valid() && !open && oldPassword == "" && newPassword == "" && confirmPassword == ""
      ensures error == None && success == None && !loading && pending == None && !closeScheduled
    {
      open := false;
      oldPassword, newPassword, confirmPassword := "", "", "";
      error, success, loading, pending, closeScheduled := None, None, false, None, false;
    }

    method Open()
      modifies this`open
      ensures open
    {
      open := true;
    }

    method Close()
      modifies this`open
      ensures !open
    {
      open := false;
    }

    /** Typing into the three fields. */
    method Edit(old_: string, new_: string, confirm: string)
      requires open
      modifies this`oldPassword, this`newPassword, this`confirmPassword
      ensures oldPassword == old_ && newPassword == new_ && confirmPassword == confirm
    {
      oldPassword, newPassword, confirmPassword := old_, new_, confirm;
    }

    /** Submitting. The browser submits only with all three fields filled
        in, and the button is disabled while loading. Both messages are
        cleared first; a failed check shows its message and sends nothing;
        otherwise the request is sent. */
    method Submit(apiKey: string) returns (req: Option<ChangeRequest>)
      requires Valid() && open && !loading
      requires oldPassword != "" && newPassword != "" && confirmPassword != ""
      modifies this`error, this`success, this`loading, this`pending
      ensures Valid() && success == None
      ensures var problem := PasswordProblem(newPassword, confirmPassword, MinLength, Mismatch, TooShort);
              && (problem.Some? ==> req == None && error == problem && !loading)
              && (problem.None? ==>
                    req == Some(ChangeRequest(oldPassword, newPassword, apiKey))
                    && pending == req && loading && error == None)
    {
      error, success := None, None;
      var problem := PasswordProblem(newPassword, confirmPassword, MinLength, Mismatch, TooShort);
      if problem.Some? {
        error := problem;
        return None;
      }
      loading := true;
      req := Some(ChangeRequest(oldPassword, newPassword, apiKey));
      pending := req;
    }

    /** The reply. Success shows the confirmation, empties all three fields
        and schedules the close; failure shows the server's detail (or the
        fallback) and keeps the fields for a retry. */
    method Complete(reply: Response<()>)
      requires Valid() && pending.Some?
      modifies this`loading, this`pending, this`error, this`success, this`closeScheduled
      modifies this`oldPassword, this`newPassword, this`confirmPassword
      ensures Valid() && !loading && pending == None
      ensures var o := JsonThenCheck(reply, ChangeFailed);
              && (o.Success? ==>
                    success == Some(Changed) && error == old(error) && closeScheduled
                    && oldPassword == "" && newPassword == "" && confirmPassword == "")
              && (o.Failure? ==>
                    error == Some(o.message) && success == old(success)
                    && closeScheduled == old(closeScheduled)
                    && oldPassword == old(oldPassword) && newPassword == old(newPassword)
                    && confirmPassword == old(confirmPassword))
    {
      pending, loading := None, false;
      match JsonThenCheck(reply, ChangeFailed)
      case Success(_) =>
        success := Some(Changed);
        oldPassword, newPassword, confirmPassword := "", "", "";
        closeScheduled := true;
      case Failure(m) =>
        error := Some(m);
    }

    /** The scheduled close fires: the dialog closes and the confirmation goes. */
    method CloseTimerFires()
      requires closeScheduled
      modifies this`open, this`success, this`closeScheduled
      ensures !open && success == None && !closeScheduled
    {
      open, success, closeScheduled := false, None, false;
    }
  }

  /** A new password of fewer than eight characters never reaches the
      server, and with a matching valid password a server failure leaves the
      dialog open with the server's message. */
  method ShortPasswordScenario(oldPw: string, newPw: string, apiKey: string, detail: string)
    requires oldPw != "" && newPw != "" && |newPw| < MinLength && detail != ""
  {
    var dialog := new ChangePasswordModal();
    dialog.Open();
    dialog.Edit(oldPw, newPw, newPw);
    var req := dialog.Submit(apiKey);
    assert req == None && dialog.error == Some(TooShort);

    dialog.Edit(oldPw, "correct horse", "correct horse");
    req := dialog.Submit(apiKey);
    assert req == Some(ChangeRequest(oldPw, "correct horse", apiKey));
    dialog.Complete(Received(400, "Bad Request", "application/json", Json(detail, ())));
    assert dialog.open && dialog.error == Some(detail) && dialog.newPassword == "correct horse";
  }
}
