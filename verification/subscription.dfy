/** The upgrade dialog: select a plan, pay by scanning a code, enter the bank
    transaction reference (UTR), and end confirmed or pending manual review.
    As in the sign-in dialog, a request is captured when it is sent and its
    reply is applied later. */
module Subscription {
  import opened Common

  const UtrLength := 12
  const InitFailed := "Failed to initialize payment. Please try again."
  const UtrMissing := "Please enter the Transaction ID / UTR Number"
  const VerifyFailed := "Payment verification failed"
  const ContactSupport := "Payment verification failed. If you paid, please contact support."
  const PendingStatus := "pending_verification"

  datatype Step = Select | Pay | Confirm | Pending

  datatype Plan = Monthly | Yearly | Topup

  /** What `/api/v1/payment/create` returns: the QR code, the amount, the UPI
      link and optionally the UPI handle and the payment's id. */
  datatype PaymentIntent = PaymentIntent(
    qrCodeBase64: string,
    amount: real,
    upiUrl: string,
    upiId: Option<string>,
    paymentId: Option<int>)

  /** The fields read from the confirmation reply (`status` is `""` when absent). */
  datatype ConfirmData = ConfirmData(status: string, newApiKey: Option<string>)

  datatype PaymentRequest =
    | CreateRequest(plan: Plan, apiKey: string)
    | ConfirmRequest(selected: Option<Plan>, utr: string, paymentId: Option<int>, apiKey: string)

  /** The digits of `s`, in order (`s.replace(/\D/g, '')`). */
  function Digits(s: string): (r: string)
    ensures AllDigits(r) && |r| <= |s|
    ensures AllDigits(s) ==> r == s
  {
    if s == [] then []
    else if IsDigit(s[0]) then [s[0]] + Digits(s[1..])
    else Digits(s[1..])
  }

  /** Filtering digits distributes over concatenation. */
  lemma {:induction false} DigitsAppend(s: string, t: string)
    ensures Digits(s + t) == Digits(s) + Digits(t)
  {
    if s == [] {
      assert s + t == t;
    } else {
      assert (s + t)[1..] == s[1..] + t;
      DigitsAppend(s[1..], t);
    }
  }

  /** What the UTR field keeps of the typed text: its digits, cut to twelve. */
  function SanitizeUtr(s: string): (r: string)
    ensures AllDigits(r) && |r| <= UtrLength
    ensures r <= Digits(s)
    ensures |r| == if |Digits(s)| < UtrLength then |Digits(s)| else UtrLength
  {
    var d := Digits(s);
    if |d| <= UtrLength then d else d[..UtrLength]
  }

  /** Sanitizing an already sanitized value changes nothing, so retyping the
      field's own content is harmless. */
  lemma SanitizeIdempotent(s: string)
    ensures SanitizeUtr(SanitizeUtr(s)) == SanitizeUtr(s)
  {
  }

  /** Text that is already at most twelve digits is kept as typed. */
  lemma SanitizeKeepsValidInput(s: string)
    requires AllDigits(s) && |s| <= UtrLength
    ensures SanitizeUtr(s) == s
  {
  }

  /** Typing more text never rewrites what the field already kept: the kept
      value of a longer text extends that of its prefix. */
  lemma SanitizeExtends(s: string, t: string)
    ensures SanitizeUtr(s) <= SanitizeUtr(s + t)
  {
    DigitsAppend(s, t);
  }

  /** The "Verify Payment" button is enabled exactly when no request is out
      and the UTR has twelve characters. */
  predicate VerifyEnabled(loading: bool, utr: string) {
    !loading && |utr| == UtrLength
  }

  /** Whenever the button is enabled, the handler's own blank-input check
      passes: twelve digits are never blank. */
  lemma EnabledUtrIsNotBlank(loading: bool, utr: string)
    requires AllDigits(utr) && VerifyEnabled(loading, utr)
    ensures !IsBlank(utr)
  {
    DigitsAreNotBlank(utr);
  }

  class SubscriptionModal {
    var open: bool
    var step: Step
    var selectedPlan: Option<Plan>
    var loading: bool
    var paymentData: Option<PaymentIntent>
    var utr: string
    var error: Option<string>
    var pending: Option<PaymentRequest>
    /** The arguments passed to the page's `onSuccess`, in order. */
    var emitted: seq<Option<string>>

    /** Loading exactly while a request is out; the pay step always has an
        intent to show; the UTR is always a sanitized value. */
    ghost predicate Valid()
      reads this
    {
      && (loading <==> pending.Some?)
      && (step == Pay ==> paymentData.Some?)
      && AllDigits(utr) && |utr| <= UtrLength
    }

    constructor ()
      ensures Valid() && !open && step == Select && selectedPlan == None && !loading
      ensures paymentData == None && utr == "" && error == None && pending == None && emitted == []
    {
      open, step, selectedPlan, loading := false, Select, None, false;
      paymentData, utr, error, pending, emitted := None, "", None, None, [];
    }

    method Open()
      modifies this`open
      ensures open
    {
      open := true;
    }

    /** The close button, and "Done" / "Close" on the final steps. */
    method Close()
      modifies this`open
      ensures !open
    {
      open := false;
    }

    /** A plan button on the select step: the plan is recorded before the
        request for a payment intent is sent with the page's key. */
    method SelectPlan(plan: Plan, apiKey: string) returns (req: PaymentRequest)
      requires Valid() && open && step == Select && !loading
      modifies this`selectedPlan, this`loading, this`error, this`pending
      ensures Valid() && selectedPlan == Some(plan) && loading && error == None
      ensures req == CreateRequest(plan, apiKey) && pending == Some(req)
    {
      selectedPlan := Some(plan);
      loading := true;
      error := None;
      req := CreateRequest(plan, apiKey);
      pending := Some(req);
    }

    /** The reply to the intent request. The status is checked before the
        body is read, so every failure shows the same fixed message and
        keeps the step; a parsed 2xx reply stores the intent and moves to pay. */
    method CompleteSelectPlan(reply: Response<PaymentIntent>)
      requires Valid() && pending.Some? && pending.value.CreateRequest?
      modifies this`loading, this`pending, this`paymentData, this`step, this`error
      ensures Valid() && !loading && pending == None
      ensures reply.Ok() && reply.body.Json? ==>
                paymentData == Some(reply.body.value) && step == Pay && error == old(error)
      ensures !(reply.Ok() && reply.body.Json?) ==>
                error == Some(InitFailed) && step == old(step) && paymentData == old(paymentData)
    {
      pending, loading := None, false;
      if reply.Ok() && reply.body.Json? {
        paymentData := Some(reply.body.value);
        step := Pay;
      } else {
        error := Some(InitFailed);
      }
    }

    /** Typing into the UTR field. */
    method TypeUtr(input: string)
      requires Valid() && step == Pay
      modifies this`utr
      ensures Valid() && utr == SanitizeUtr(input)
    {
      utr := SanitizeUtr(input);
    }

    /** "Back" on the pay step. It stays usable while a request is out. */
    method Back()
      requires Valid() && step == Pay
      modifies this`step
      ensures Valid() && step == Select
    {
      step := Select;
    }

    /** "Verify Payment". The handler itself only refuses a blank UTR, with a
        message and no request; otherwise it sends the plan, the UTR and the
        intent's payment id with the page's key. */
    method ConfirmPayment(apiKey: string) returns (req: Option<PaymentRequest>)
      requires Valid() && open && step == Pay && !loading
      modifies this`loading, this`error, this`pending
      ensures Valid()
      ensures IsBlank(utr) ==> req == None && error == Some(UtrMissing) && !loading && pending == None
      ensures !IsBlank(utr) ==>
                req == Some(ConfirmRequest(selectedPlan, utr, paymentData.value.paymentId, apiKey))
                && pending == req && loading && error == None
    {
      if IsBlank(utr) {
        error := Some(UtrMissing);
        return None;
      }
      loading := true;
      error := None;
      req := Some(ConfirmRequest(selectedPlan, utr, paymentData.value.paymentId, apiKey));
      pending := req;
    }

    /** A click on "Verify Payment", which the page enables only while no
        request is outstanding and the UTR has exactly twelve characters.
        Every confirmation sent this way carries twelve digits. */
    method PressVerify(apiKey: string) returns (req: Option<PaymentRequest>)
      requires Valid() && open && step == Pay && VerifyEnabled(loading, utr)
      modifies this`loading, this`error, this`pending
      ensures Valid() && loading && error == None && pending == req
      ensures req == Some(ConfirmRequest(selectedPlan, utr, paymentData.value.paymentId, apiKey))
      ensures AllDigits(req.value.utr) && |req.value.utr| == UtrLength
    {
      EnabledUtrIsNotBlank(loading, utr);
      req := ConfirmPayment(apiKey);
    }

    /** The reply to the confirmation. A parsed 2xx reply clears the intent
        and either reports a pending review (handing `null` to the page) or
        a confirmation (handing over the new key, if any). Any failure shows
        the error and keeps the step, the intent and the UTR for a retry. */
    method CompleteConfirm(reply: Response<ConfirmData>)
      requires Valid() && pending.Some? && pending.value.ConfirmRequest?
      modifies this`loading, this`pending, this`paymentData, this`step, this`error, this`emitted
      ensures Valid() && !loading && pending == None
      ensures var o := JsonThenCheck(reply, VerifyFailed);
              && (o.Failure? ==>
                    error == Some(OrElse(o.message, ContactSupport)) && step == old(step)
                    && paymentData == old(paymentData) && emitted == old(emitted))
              && (o.Success? && o.value.status == PendingStatus ==>
                    step == Pending && paymentData == None && emitted == old(emitted) + [None]
                    && error == old(error))
              && (o.Success? && o.value.status != PendingStatus ==>
                    step == Confirm && paymentData == None
                    && emitted == old(emitted) + [o.value.newApiKey] && error == old(error))
    {
      pending, loading := None, false;
      match JsonThenCheck(reply, VerifyFailed)
      case Failure(m) =>
        error := Some(OrElse(m, ContactSupport));
      case Success(d) =>
        paymentData := None;
        if d.status == PendingStatus {
          emitted := emitted + [None];
          step := Pending;
        } else {
          emitted := emitted + [d.newApiKey];
          step := Confirm;
        }
    }
  }

  /** The monthly plan end to end, with the two outcomes a confirmation can
      have: a pending review hands `null` to the page, a confirmation hands
      over the new key. */
  method MonthlyPlanScenario(key: string, intent: PaymentIntent, typed: string, outcome: ConfirmData)
    requires AllDigits(typed) && |typed| == UtrLength
  {
    var dialog := new SubscriptionModal();
    dialog.Open();
    var create := dialog.SelectPlan(Monthly, key);
    dialog.CompleteSelectPlan(Received(200, "OK", "application/json", Json("", intent)));
    assert dialog.step == Pay && dialog.paymentData == Some(intent);

    SanitizeKeepsValidInput(typed);
    dialog.TypeUtr(typed);
    assert dialog.utr == typed && VerifyEnabled(dialog.loading, dialog.utr);

    var confirm := dialog.PressVerify(key);
    assert confirm == Some(ConfirmRequest(Some(Monthly), typed, intent.paymentId, key));
    dialog.CompleteConfirm(Received(200, "OK", "application/json", Json("", outcome)));
    assert outcome.status == PendingStatus ==> dialog.step == Pending && dialog.emitted == [None];
    assert outcome.status != PendingStatus ==> dialog.step == Confirm && dialog.emitted == [outcome.newApiKey];
  }
}
