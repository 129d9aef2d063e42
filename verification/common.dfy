/** Shared vocabulary of the client: optional values, the abstract shape of an
    HTTP reply as the handlers observe it, and the small string predicates the
    handlers use (`trim()`, `indexOf`, `||` on strings, number formatting). */
module Common {

  datatype Option<T> = None | Some(value: T)

  /** The body of a reply as `res.json()` sees it: either it parses (the
      object's `detail` field, `""` when absent, and the fields the caller
      reads), or parsing throws with some message. */
  datatype Body<T> = Json(detail: string, value: T) | Garbled(parseError: string)

  /** What one `fetch` produces: it rejects (network failure, with the
      message of the thrown error), or a reply arrives with a status, a
      status text, a `content-type` header (`""` when absent) and a body. */
  datatype Response<T> =
    | Failed(message: string)
    | Received(status: nat, statusText: string, contentType: string, body: Body<T>)
  {
    /** `res.ok`: the status is in the 2xx range. */
    predicate Ok() {
      Received? && 200 <= status <= 299
    }

    /** The authorization failures the session treats as a revoked key. */
    predicate Unauthorized() {
      Received? && (status == 401 || status == 403)
    }
  }

  /** A request field or header that is sent only when the string is
      non-empty (`if (s) headers[...] = s`, `s || undefined`). */
  function IfPresent(s: string): Option<string> {
    if s != "" then Some(s) else None
  }

  /** Either the parsed reply data or the message of the error a handler caught. */
  datatype Outcome<T> = Success(value: T) | Failure(message: string)

  /** JavaScript's `s || fallback` on a string: the empty string is falsy. */
  function OrElse(s: string, fallback: string): string {
    if s != "" then s else fallback
  }

  /** The pattern shared by most handlers:
        const data = await res.json();
        if (!res.ok) throw new Error(data.detail || fallback);
      followed by a `catch` that keeps the error's message. A reply succeeds
      exactly when it is 2xx and its body parses. */
  function JsonThenCheck<T>(r: Response<T>, fallback: string): (o: Outcome<T>)
    ensures o.Success? <==> r.Ok() && r.body.Json?
    ensures o.Success? ==> o.value == r.body.value
    ensures r.Failed? ==> o == Failure(r.message)
    ensures r.Received? && r.body.Garbled? ==> o == Failure(r.body.parseError)
    ensures r.Received? && r.body.Json? && !r.Ok() ==>
              o == Failure(OrElse(r.body.detail, fallback))
  {
    match r
    case Failed(m) => Failure(m)
    case Received(_, _, _, Garbled(e)) => Failure(e)
    case Received(_, _, _, Json(d, v)) =>
      if r.Ok() then Success(v) else Failure(OrElse(d, fallback))
  }

  /** The checks both password forms run before sending anything, in this
      order: the confirmation must match, then the password must be long
      enough. `None` means both pass. */
  function PasswordProblem(password: string, confirmation: string, minLength: nat,
                           mismatch: string, tooShort: string): (r: Option<string>)
    ensures r == None <==> password == confirmation && |password| >= minLength
    ensures password != confirmation ==> r == Some(mismatch)
    ensures password == confirmation && |password| < minLength ==> r == Some(tooShort)
  {
    if password != confirmation then Some(mismatch)
    else if |password| < minLength then Some(tooShort)
    else None
  }

  /** The characters `String.prototype.trim` removes: the ECMAScript
      WhiteSpace and LineTerminator code points. */
  predicate IsWhiteSpace(c: char) {
    c == '\t' || c == '\n' || c == '\U{000B}' || c == '\U{000C}' || c == '\r' ||
    c == ' ' || c == '\U{00A0}' || c == '\U{1680}' || ('\U{2000}' <= c <= '\U{200A}') ||
    c == '\U{2028}' || c == '\U{2029}' || c == '\U{202F}' || c == '\U{205F}' ||
    c == '\U{3000}' || c == '\U{FEFF}'
  }

  /** `!s.trim()`: trimming leaves nothing, i.e. every character is white space. */
  predicate IsBlank(s: string) {
    forall i :: 0 <= i < |s| ==> IsWhiteSpace(s[i])
  }

  predicate IsDigit(c: char) {
    '0' <= c <= '9'
  }

  predicate AllDigits(s: string) {
    forall i :: 0 <= i < |s| ==> IsDigit(s[i])
  }

  /** A string of ASCII digits is never blank, unless it is empty. */
  lemma DigitsAreNotBlank(s: string)
    requires AllDigits(s) && |s| > 0
    ensures !IsBlank(s)
  {
    assert IsDigit(s[0]);
  }

  /** `sub` occurs in `s` at position `j`. */
  predicate OccursAt(s: string, sub: string, j: int) {
    0 <= j <= |s| - |sub| && s[j..j + |sub|] == sub
  }

  /** `s.indexOf(sub)`: the first position where `sub` occurs in `s`, or -1
      when it occurs nowhere. */
  function IndexOf(s: string, sub: string): (r: int)
    ensures r == -1 || OccursAt(s, sub, r)
    ensures r == -1 <==> forall j :: !OccursAt(s, sub, j)
    ensures forall j :: 0 <= j < r ==> !OccursAt(s, sub, j)
    decreases |s|
  {
    if |s| < |sub| then -1
    else if s[..|sub|] == sub then 0
    else
      var k := IndexOf(s[1..], sub);
      assert forall j :: OccursAt(s, sub, j) ==> j >= 1 && OccursAt(s[1..], sub, j - 1) by {
        forall j | OccursAt(s, sub, j) ensures j >= 1 && OccursAt(s[1..], sub, j - 1) {
          assert s[1..][j - 1..j - 1 + |sub|] == s[j..j + |sub|];
        }
      }
      assert k >= 0 ==> OccursAt(s, sub, k + 1) by {
        if k >= 0 { assert s[1..][k..k + |sub|] == s[k + 1..k + 1 + |sub|]; }
      }
      if k == -1 then -1 else k + 1
  }

  /** The value of a string of decimal digits. */
  function DigitsValue(s: string): nat
    requires AllDigits(s)
  {
    if s == [] then 0
    else 10 * DigitsValue(s[..|s| - 1]) + (s[|s| - 1] as int - '0' as int)
  }

  /** `String(n)` for a natural number: its decimal digits, no leading zero. */
  function DecimalString(n: nat): (r: string)
    ensures |r| > 0 && AllDigits(r)
    ensures |r| > 1 ==> r[0] != '0'
    ensures DigitsValue(r) == n
  {
    var last := ['0' + (n % 10) as char];
    if n < 10 then last
    else
      var front := DecimalString(n / 10);
      assert (front + last)[..|front + last| - 1] == front;
      front + last
  }
}
