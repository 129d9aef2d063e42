/** The playground page: the session (the API key, its persisted copy under
    "ps_api_key" and the profile fetched for it) and the handlers that use it.
    Every network call is replaced by the reply it receives, given as a
    parameter; each handler runs as one atomic step. */
module Home {
  import opened Common
  import opened Types

  const KeyName := "ps_api_key"
  const KeyRequired := "API Key is required"
  const SessionExpired := "Session expired. Please login again."
  const NoExecution := "Optimization only - no LLM execution performed."

  /** The profile `/api/v1/auth/me` returns. */
  datatype Profile = Profile(
    email: string,
    tier: string,
    usageCount: int,
    maxUsage: int,
    isVerified: bool,
    subscriptionPlan: string)

  /** The payload `/api/v1/optimize` returns. */
  datatype OptimizationResult = OptimizationResult(
    rawText: string,
    compressedText: string,
    tokens: TokenMetrics)

  /** The optimize request: body `{text, model}`, key header only when logged in. */
  datatype OptimizeRequest = OptimizeRequest(text: string, model: string, apiKey: Option<string>)

  /** The execute request: body `{text, provider, model, provider_key?}` and the key header. */
  datatype ExecuteRequest = ExecuteRequest(
    text: string,
    provider: string,
    model: string,
    providerKey: Option<string>,
    apiKey: string)

  function StatusMessage(status: nat): string {
    "Request failed with status " + DecimalString(status)
  }

  /** How the optimize handler turns its reply into shown data or an error
      message. Both the error body and the success body are parsed without a
      guard, so a body that does not parse surfaces the parser's message. */
  function OptimizeOutcome(r: Response<OptimizationResult>, model: string): (o: Outcome<ExecuteResponse>)
    ensures o.Success? <==> r.Ok() && r.body.Json?
    ensures o.Success? ==> o.value.provider == "none" && o.value.output == NoExecution
    ensures o.Success? ==> o.value.model == Some(model) && o.value.tokens == r.body.value.tokens
    ensures o.Success? ==> o.value.rawText == r.body.value.rawText
    ensures o.Success? ==> o.value.compressedText == r.body.value.compressedText
    ensures r.Received? && !r.Ok() && r.body.Json? ==>
              o == Failure(OrElse(r.body.detail, StatusMessage(r.status)))
    ensures r.Received? && r.body.Garbled? ==> o == Failure(r.body.parseError)
    ensures r.Failed? ==> o == Failure(r.message)
  {
    match JsonThenCheck(r, if r.Received? then StatusMessage(r.status) else "")
    case Failure(m) => Failure(m)
    case Success(p) =>
      Success(ExecuteResponse("none", Some(model), p.rawText, p.compressedText, NoExecution, p.tokens))
  }

  /** How the execute handler turns its reply into shown data or an error
      message. The error body is parsed with `.catch(() => null)`, so a
      non-2xx reply always yields the server's detail or the status message. */
  function ExecuteOutcome(r: Response<ExecuteResponse>): (o: Outcome<ExecuteResponse>)
    ensures o.Success? <==> r.Ok() && r.body.Json?
    ensures o.Success? ==> o.value == r.body.value
    ensures r.Received? && !r.Ok() ==>
              o == Failure(if r.body.Json? then OrElse(r.body.detail, StatusMessage(r.status))
                           else StatusMessage(r.status))
    ensures r.Ok() && r.body.Garbled? ==> o == Failure(r.body.parseError)
    ensures r.Failed? ==> o == Failure(r.message)
  {
    match r
    case Failed(m) => Failure(m)
    case Received(status, _, _, body) =>
      if !r.Ok() then
        Failure(if body.Json? then OrElse(body.detail, StatusMessage(status)) else StatusMessage(status))
      else if body.Json? then Success(body.value)
      else Failure(body.parseError)
  }

  /** The percentage of tokens saved, `Math.round((raw - compressed) / raw * 100)`,
      or 0 when there is no result or no raw tokens. Computed on integers:
      the result is the integer nearest to the exact percentage, an exact
      half rounded up. The page computes in double precision, where an exact
      half can fall just below it and round down. */
  function SavingsPercent(data: Option<ExecuteResponse>): (r: int)
    ensures data.None? || data.value.tokens.rawTokens <= 0 ==> r == 0
    ensures data.Some? && data.value.tokens.rawTokens > 0 ==>
              var raw := data.value.tokens.rawTokens;
              var saved := data.value.tokens.rawTokens - data.value.tokens.compressedTokens;
              2 * raw * r - raw <= 200 * saved < 2 * raw * r + raw
  {
    if data.Some? && data.value.tokens.rawTokens > 0 then
      var raw := data.value.tokens.rawTokens;
      var saved := raw - data.value.tokens.compressedTokens;
      var q := (200 * saved + raw) / (2 * raw);
      assert 2 * raw * q <= 200 * saved + raw < 2 * raw * q + 2 * raw;
      q
    else 0
  }

  /** Dividing both sides of `a * b <= a * c` by a positive `a`. */
  lemma CancelPositive(a: int, b: int, c: int)
    requires a > 0 && a * b <= a * c
    ensures b <= c
  {
    assert a * (c - b) == a * c - a * b;
  }

  /** The integer nearest to `100 * saved / raw` lies in [0, 100] when
      `saved` lies in [0, raw], and hits the ends exactly at the ends. */
  lemma RoundedPercentInRange(raw: int, saved: int, r: int)
    requires raw > 0 && 0 <= saved <= raw
    requires 2 * raw * r - raw <= 200 * saved < 2 * raw * r + raw
    ensures 0 <= r <= 100
    ensures saved == 0 ==> r == 0
    ensures saved == raw ==> r == 100
  {
    assert raw * (2 * r + 1) == 2 * raw * r + raw;
    assert raw * (2 * r - 1) == 2 * raw * r - raw;
    CancelPositive(raw, 0, 2 * r + 1);
    CancelPositive(raw, 2 * r - 1, 200);
    if saved == 0 {
      CancelPositive(raw, 2 * r - 1, 0);
    }
    if saved == raw {
      CancelPositive(raw, 200, 2 * r + 1);
    }
  }

  /** When the compressed count lies between 0 and the raw count, the
      percentage shown lies between 0 and 100; no saving shows 0 and a
      complete saving shows 100. */
  lemma SavingsPercentInRange(data: ExecuteResponse)
    requires data.tokens.rawTokens > 0
    requires 0 <= data.tokens.compressedTokens <= data.tokens.rawTokens
    ensures 0 <= SavingsPercent(Some(data)) <= 100
    ensures data.tokens.compressedTokens == data.tokens.rawTokens ==> SavingsPercent(Some(data)) == 0
    ensures data.tokens.compressedTokens == 0 ==> SavingsPercent(Some(data)) == 100
  {
    RoundedPercentInRange(data.tokens.rawTokens,
                          data.tokens.rawTokens - data.tokens.compressedTokens,
                          SavingsPercent(Some(data)));
  }

  /** The page's session state and the results its handlers show. */
  class Session {
    var apiKey: string
    var storage: map<string, string>
    var userInfo: Option<Profile>
    /** The key sent with the outstanding `/me` request of the key effect. */
    var meRequest: Option<string>
    /** The key sent with the outstanding `/me` request of a plan upgrade. */
    var refreshRequest: Option<string>
    var showAuthModal: bool
    var error: Option<string>
    var data: Option<ExecuteResponse>
    var historyLogs: seq<ActivityLog>
    var historyError: Option<string>

    /** A non-empty key is always mirrored in storage, and the key effect's
        outstanding `/me` request is for the current key. */
    ghost predicate Valid()
      reads this
    {
      && (apiKey != "" ==> KeyName in storage && storage[KeyName] == apiKey)
      && (meRequest.Some? ==> apiKey != "" && meRequest.value == apiKey)
    }

    /** The key is now `k`, with the effects that depend on it run once if
        its value changed: a new non-empty key is stored and gets a `/me`
        request, a new empty key drops the pending request and clears the
        profile, and an unchanged key leaves storage, request and profile. */
    twostate predicate KeyAdopted(k: string)
      reads this
    {
      && apiKey == k
      && (k == old(apiKey) ==> storage == old(storage) && meRequest == old(meRequest) && userInfo == old(userInfo))
      && (k != old(apiKey) && k != "" ==>
            storage == old(storage)[KeyName := k] && meRequest == Some(k) && userInfo == old(userInfo))
      && (k != old(apiKey) && k == "" ==> storage == old(storage) && meRequest == None && userInfo == None)
    }

    /** Mounting the page: the key starts empty and is then loaded from
        storage when a non-empty one is stored, which sends a `/me` request. */
    constructor (stored: map<string, string>)
      ensures Valid()
      ensures storage == stored
      ensures apiKey == (if KeyName in stored then stored[KeyName] else "")
      ensures meRequest == (if apiKey != "" then Some(apiKey) else None)
      ensures userInfo == None && refreshRequest == None && !showAuthModal
      ensures error == None && data == None && historyLogs == [] && historyError == None
    {
      apiKey := "";
      storage := stored;
      userInfo := None;
      meRequest := None;
      refreshRequest := None;
      showAuthModal := false;
      error := None;
      data := None;
      historyLogs := [];
      historyError := None;
      new;
      var loaded := if KeyName in stored then stored[KeyName] else "";
      if loaded != "" {
        SetApiKey(loaded);
        assert stored[KeyName := loaded] == stored;
      }
    }

    /** `setApiKey(k)` followed by the two effects that depend on the key,
        which run only when the value changes: a non-empty key is written to
        storage and a `/me` request is sent for it; an empty key clears the
        profile. Emptying the key does not remove the stored copy. */
    method SetApiKey(k: string)
      requires Valid()
      modifies this
      ensures Valid() && KeyAdopted(k)
      ensures unchanged(this`refreshRequest, this`showAuthModal, this`error, this`data)
      ensures unchanged(this`historyLogs, this`historyError)
    {
      if k != apiKey {
        apiKey := k;
        if k != "" {
          meRequest := Some(k);
          storage := storage[KeyName := k];
        } else {
          meRequest := None;
          userInfo := None;
        }
      }
    }

    /** The reply to the key effect's `/me` request. 401 and 403 revoke the
        key everywhere; a network failure or an unparsable 2xx body clears the
        profile; any other non-2xx reply changes nothing; the key survives
        every reply but 401 and 403. */
    method OnMeReply(reply: Response<Profile>)
      requires Valid() && meRequest.Some?
      modifies this
      ensures Valid() && meRequest == None
      ensures reply.Unauthorized() ==>
                apiKey == "" && storage == old(storage) - {KeyName} && userInfo == None
      ensures !reply.Unauthorized() ==> apiKey == old(apiKey) && storage == old(storage)
      ensures !reply.Unauthorized() ==>
                userInfo == (if reply.Ok() && reply.body.Json? then Some(reply.body.value)
                             else if reply.Failed? || reply.Ok() then None
                             else old(userInfo))
      ensures unchanged(this`refreshRequest, this`showAuthModal, this`error, this`data)
      ensures unchanged(this`historyLogs, this`historyError)
    {
      meRequest := None;
      if reply.Unauthorized() {
        SetApiKey("");
        storage := storage - {KeyName};
        userInfo := None;
      } else if reply.Failed? {
        userInfo := None;
      } else if reply.Ok() {
        match reply.body
        case Json(_, p) => userInfo := Some(p);
        case Garbled(_) => userInfo := None;
      }
    }

    /** The "Log out" button: the key is emptied and its stored copy removed. */
    method Logout()
      requires Valid()
      modifies this
      ensures Valid() && apiKey == "" && storage == old(storage) - {KeyName} && meRequest == None
      ensures userInfo == (if old(apiKey) == "" then old(userInfo) else None)
      ensures unchanged(this`refreshRequest, this`showAuthModal, this`error, this`data)
      ensures unchanged(this`historyLogs, this`historyError)
    {
      SetApiKey("");
      storage := storage - {KeyName};
    }

    /** Typing a key into the manual entry field, which is shown only while
        there is neither a key nor a profile. */
    method EnterKey(k: string)
      requires Valid() && apiKey == "" && userInfo.None?
      modifies this
      ensures Valid() && apiKey == k && userInfo == None
      ensures storage == (if k != "" then old(storage)[KeyName := k] else old(storage))
      ensures meRequest == IfPresent(k)
      ensures unchanged(this`refreshRequest, this`showAuthModal, this`error, this`data)
      ensures unchanged(this`historyLogs, this`historyError)
    {
      SetApiKey(k);
    }

    /** The "Login / Signup" button. */
    method OpenAuthModal()
      modifies this`showAuthModal
      ensures showAuthModal
    {
      showAuthModal := true;
    }

    /** The sign-in dialog's close callback. */
    method CloseAuthModal()
      modifies this`showAuthModal
      ensures !showAuthModal
    {
      showAuthModal := false;
    }

    /** The sign-in dialog's success callback: adopt the key and close the dialog. */
    method OnAuthSuccess(key: string)
      requires Valid()
      modifies this
      ensures Valid() && KeyAdopted(key) && !showAuthModal
      ensures unchanged(this`refreshRequest, this`error, this`data, this`historyLogs, this`historyError)
    {
      SetApiKey(key);
      showAuthModal := false;
    }

    /** The subscription dialog's success callback. Only a non-empty new key
        replaces the current one, and then an extra `/me` request is sent for
        it; `null` (a payment pending review) changes nothing. */
    method OnSubscriptionSuccess(newKey: Option<string>)
      requires Valid()
      modifies this
      ensures Valid()
      ensures newKey.Some? && newKey.value != "" ==> KeyAdopted(newKey.value) && refreshRequest == newKey
      ensures !(newKey.Some? && newKey.value != "") ==>
                apiKey == old(apiKey) && storage == old(storage) && refreshRequest == old(refreshRequest)
                && meRequest == old(meRequest) && userInfo == old(userInfo)
      ensures unchanged(this`showAuthModal, this`error, this`data, this`historyLogs, this`historyError)
    {
      if newKey.Some? && newKey.value != "" {
        SetApiKey(newKey.value);
        refreshRequest := newKey;
      }
    }

    /** The reply to the upgrade's `/me` request: a parsed 2xx body becomes
        the profile and any non-2xx reply clears it (401 and 403 included:
        this path never revokes the key); a failed request or an unparsable
        body is an unhandled rejection and changes nothing. */
    method OnRefreshReply(reply: Response<Profile>)
      requires Valid() && refreshRequest.Some?
      modifies this
      ensures Valid() && refreshRequest == None
      ensures userInfo == (if reply.Ok() && reply.body.Json? then Some(reply.body.value)
                           else if reply.Received? && !reply.Ok() then None
                           else old(userInfo))
      ensures unchanged(this`apiKey, this`storage, this`meRequest, this`showAuthModal)
      ensures unchanged(this`error, this`data, this`historyLogs, this`historyError)
    {
      refreshRequest := None;
      if reply.Ok() {
        if reply.body.Json? {
          userInfo := Some(reply.body.value);
        }
      } else if reply.Received? {
        userInfo := None;
      }
    }

    /** "Rotate Key": after the user confirms, the request carries the current
        key, and only a parsed 2xx reply replaces it. Returns the key sent, if
        a request was sent. */
    method RotateKey(confirmed: bool, reply: Response<string>) returns (sent: Option<string>)
      requires Valid()
      modifies this
      ensures Valid()
      ensures sent == (if confirmed then Some(old(apiKey)) else None)
      ensures KeyAdopted(if confirmed && reply.Ok() && reply.body.Json? then reply.body.value else old(apiKey))
      ensures unchanged(this`refreshRequest, this`showAuthModal, this`error, this`data)
      ensures unchanged(this`historyLogs, this`historyError)
    {
      if !confirmed {
        return None;
      }
      sent := Some(apiKey);
      if reply.Ok() && reply.body.Json? {
        SetApiKey(reply.body.value);
      }
    }

    /** Loading the history. The key header is sent only when there is a key.
        401 and 403 empty the key, remove its stored copy and report an
        expired session; other failures are reported and keep the key and the
        previously loaded rows. */
    method FetchHistory(reply: Response<seq<ActivityLog>>) returns (sent: Option<string>)
      requires Valid()
      modifies this
      ensures Valid()
      ensures sent == IfPresent(old(apiKey))
      ensures reply.Unauthorized() ==>
                apiKey == "" && storage == old(storage) - {KeyName} && historyError == Some(SessionExpired)
                && meRequest == None && userInfo == (if old(apiKey) == "" then old(userInfo) else None)
      ensures !reply.Unauthorized() ==> KeyAdopted(old(apiKey))
      ensures reply.Ok() && reply.body.Json? ==> historyLogs == reply.body.value && historyError == None
      ensures !(reply.Ok() && reply.body.Json?) ==> historyLogs == old(historyLogs)
      ensures reply.Ok() && reply.body.Garbled? ==> historyError == Some(reply.body.parseError)
      ensures reply.Received? && !reply.Ok() && !reply.Unauthorized() ==>
                historyError == Some("Failed to fetch: " + reply.statusText)
      ensures reply.Failed? ==> historyError == Some(reply.message)
      ensures unchanged(this`refreshRequest, this`showAuthModal, this`error, this`data)
    {
      sent := IfPresent(apiKey);
      historyError := None;
      match reply
      case Failed(m) =>
        historyError := Some(m);
      case Received(status, statusText, _, body) =>
        if reply.Ok() {
          match body
          case Json(_, logs) => historyLogs := logs;
          case Garbled(e) => historyError := Some(e);
        } else if reply.Unauthorized() {
          SetApiKey("");
          storage := storage - {KeyName};
          historyError := Some(SessionExpired);
        } else {
          historyError := Some("Failed to fetch: " + statusText);
        }
    }

    /** "Optimize Only": blank input does nothing; otherwise the previous
        result is cleared, the request carries the key only when there is one,
        and the adapted result or the error message is shown. */
    method Optimize(rawInput: string, model: string, reply: Response<OptimizationResult>)
      returns (req: Option<OptimizeRequest>)
      requires Valid()
      modifies this`error, this`data
      ensures Valid()
      ensures IsBlank(rawInput) ==> req == None && error == old(error) && data == old(data)
      ensures !IsBlank(rawInput) ==> req == Some(OptimizeRequest(rawInput, model, IfPresent(apiKey)))
      ensures !IsBlank(rawInput) ==>
                var o := OptimizeOutcome(reply, model);
                error == (if o.Failure? then Some(o.message) else None)
                && data == (if o.Success? then Some(o.value) else None)
    {
      if IsBlank(rawInput) {
        return None;
      }
      error := None;
      data := None;
      req := Some(OptimizeRequest(rawInput, model, IfPresent(apiKey)));
      match OptimizeOutcome(reply, model)
      case Success(d) => data := Some(d);
      case Failure(m) => error := Some(m); data := None;
    }

    /** "Run Execute Pipeline": blank input does nothing; without a key the
        error "API Key is required" is shown and no request is sent;
        otherwise the request carries the key, and the provider key only when
        one was entered. A failure clears the shown result. */
    method Execute(rawInput: string, provider: string, model: string, providerKey: string,
                   reply: Response<ExecuteResponse>)
      returns (req: Option<ExecuteRequest>)
      requires Valid()
      modifies this`error, this`data
      ensures Valid()
      ensures IsBlank(rawInput) ==> req == None && error == old(error) && data == old(data)
      ensures !IsBlank(rawInput) && apiKey == "" ==>
                req == None && error == Some(KeyRequired) && data == old(data)
      ensures !IsBlank(rawInput) && apiKey != "" ==>
                req == Some(ExecuteRequest(rawInput, provider, model, IfPresent(providerKey), apiKey))
      ensures !IsBlank(rawInput) && apiKey != "" ==>
                var o := ExecuteOutcome(reply);
                error == (if o.Failure? then Some(o.message) else None)
                && data == (if o.Success? then Some(o.value) else None)
    {
      if IsBlank(rawInput) {
        return None;
      }
      if apiKey == "" {
        error := Some(KeyRequired);
        return None;
      }
      error := None;
      req := Some(ExecuteRequest(rawInput, provider, model, IfPresent(providerKey), apiKey));
      match ExecuteOutcome(reply)
      case Success(d) => data := Some(d);
      case Failure(m) => error := Some(m); data := None;
    }
  }
}
