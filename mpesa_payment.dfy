/** The M-Pesa payment screen: the phone-number check, the one gateway
    request a submission makes, and the messages the reply leaves behind. */
module MpesaPayment {
  import opened Js
  import opened Text
  import opened Catalog

  const InvalidPhoneMessage := "Please enter a valid phone number in the format 2547xxxxxxxx or 2541xxxxxxxx."
  const DefaultFailure := "Payment failed"
  const DefaultSuccess := "Payment initiated successfully"
  const NoProductMessage := "No product data available."

  /** `/^254[17]\d{8}$/`, one class per character. */
  function PhonePattern(): (p: seq<CharClass>)
    ensures |p| == 12
  {
    [Exactly('2'), Exactly('5'), Exactly('4'), OneOf({'1', '7'})] + seq(8, _ => Digit)
  }

  /** `isValidPhoneNumber`: the regular expression's `test`. */
  predicate IsValidPhoneNumber(phone: string)
  {
    MatchesPattern(PhonePattern(), phone)
  }

  /** The numbers the gateway format admits: twelve characters, `254`, then
      `7` or `1`, then eight digits. */
  ghost predicate GatewayShape(phone: string)
  {
    |phone| == 12 && phone[..3] == "254" && phone[3] in {'1', '7'} && AllDigits(phone[4..])
  }

  lemma ValidPhoneIff(phone: string)
    ensures IsValidPhoneNumber(phone) <==> GatewayShape(phone)
  {
    if IsValidPhoneNumber(phone) {
      MatchHasShape(phone);
    }
    if GatewayShape(phone) {
      ShapeMatches(phone);
    }
  }

  /** The class the pattern puts at each of its twelve positions. */
  lemma PhonePatternAt(i: nat)
    requires i < 12
    ensures PhonePattern()[i]
         == if i == 0 then Exactly('2') else if i == 1 then Exactly('5') else if i == 2 then Exactly('4')
            else if i == 3 then OneOf({'1', '7'}) else Digit
  {
  }

  lemma ShapeMatches(phone: string)
    requires GatewayShape(phone)
    ensures IsValidPhoneNumber(phone)
  {
    forall i | 0 <= i < 12 ensures PhonePattern()[i].Accepts(phone[i]) {
      PhonePatternAt(i);
      if i < 3 {
        assert phone[..3][i] == phone[i];
      } else if i > 3 {
        assert phone[4..][i - 4] == phone[i];
      }
    }
    MatchesPatternIff(PhonePattern(), phone);
  }

  lemma MatchHasShape(phone: string)
    requires IsValidPhoneNumber(phone)
    ensures GatewayShape(phone)
  {
    MatchesPatternIff(PhonePattern(), phone);
    PhonePatternAt(0);
    PhonePatternAt(1);
    PhonePatternAt(2);
    PhonePatternAt(3);
    assert PhonePattern()[0].Accepts(phone[0]) && PhonePattern()[1].Accepts(phone[1]);
    assert PhonePattern()[2].Accepts(phone[2]) && PhonePattern()[3].Accepts(phone[3]);
    assert phone[..3] == [phone[0], phone[1], phone[2]];
    forall i | 0 <= i < 8 ensures IsDigit(phone[4..][i]) {
      PhonePatternAt(i + 4);
      assert PhonePattern()[i + 4].Accepts(phone[i + 4]);
    }
  }

  /** A `2547…` number is accepted. */
  lemma PhoneExampleSeven()
    ensures IsValidPhoneNumber("254712345678")
  {
    AcceptsNumber("254712345678");
  }

  /** A `2541…` number is accepted too. */
  lemma PhoneExampleOne()
    ensures IsValidPhoneNumber("254112345678")
  {
    AcceptsNumber("254112345678");
  }

  /** A local `07…` number and an eleven-digit number are too short. */
  lemma PhoneExamplesTooShort()
    ensures !IsValidPhoneNumber("0712345678")
    ensures !IsValidPhoneNumber("25471234567")
  {
    RefusesNumber("0712345678");
    RefusesNumber("25471234567");
  }

  /** A fourth digit other than 7 or 1, or a leading `+`, is refused. */
  lemma PhoneExamplesMisplaced()
    ensures !IsValidPhoneNumber("254812345678")
    ensures !IsValidPhoneNumber("+254712345678")
  {
    RefusesNumber("254812345678");
    RefusesNumber("+254712345678");
  }

  lemma RefusesNumber(phone: string)
    requires |phone| != 12 || phone[0] != '2' || phone[3] !in {'1', '7'}
    ensures !IsValidPhoneNumber(phone)
  {
    ValidPhoneIff(phone);
    if |phone| == 12 && phone[..3] == "254" {
      assert phone[0] == phone[..3][0];
    }
  }

  lemma AcceptsNumber(phone: string)
    requires |phone| == 12 && phone[0] == '2' && phone[1] == '5' && phone[2] == '4' && phone[3] in {'1', '7'}
    requires forall i :: 4 <= i < 12 ==> '0' <= phone[i] <= '9'
    ensures IsValidPhoneNumber(phone)
  {
    assert phone[..3] == "254";
    ValidPhoneIff(phone);
  }

  /** The form fields sent to the gateway. */
  datatype PaymentRequest = PaymentRequest(phone: string, amount: int)

  /** What `fetch` and `response.json()` produce. A reply is the parsed body
      with `response.ok`; its `error` field is carried but never read. The body
      is parsed before `ok` is looked at, so a body that does not parse, like a
      request that never reaches the gateway, ends as a thrown error with its
      own message. */
  datatype GatewayOutcome =
    | Replied(ok: bool, message: Option<string>, error: Option<string>)
    | Threw(reason: string)

  /** The screen's state: the phone field, the in-flight flag, the two alerts,
      and every request made so far. */
  datatype PaymentState = PaymentState(
    phone: string,
    loading: bool,
    error: string,
    success: string,
    requests: seq<PaymentRequest>)

  const Initial := PaymentState("", false, "", "", [])

  /** While a request is in flight both alerts are empty. */
  predicate Valid(s: PaymentState)
  {
    s.loading ==> s.error == "" && s.success == ""
  }

  /** Pressing "Pay Now": `submitForm` up to the request. The button is
      disabled while a request is in flight, so a press then does nothing. */
  function PressPay(s: PaymentState, price: int): (t: PaymentState)
    requires Valid(s)
    ensures Valid(t) && t.phone == s.phone
    ensures s.loading ==> t == s
    ensures t.requests == s.requests
         || (!s.loading && IsValidPhoneNumber(s.phone) && t.requests == s.requests + [PaymentRequest(s.phone, price)])
    ensures !s.loading ==> t.success == "" && (t.loading <==> IsValidPhoneNumber(s.phone))
    ensures !s.loading && !IsValidPhoneNumber(s.phone) ==> t.error == InvalidPhoneMessage && t.requests == s.requests
    ensures !s.loading && IsValidPhoneNumber(s.phone) ==> |t.requests| == |s.requests| + 1
  {
    if s.loading then s
    else if !IsValidPhoneNumber(s.phone) then s.(error := InvalidPhoneMessage, success := "")
    else s.(loading := true, error := "", success := "", requests := s.requests + [PaymentRequest(s.phone, price)])
  }

  /** The outcome of the request in flight: the `try`, `catch` and `finally`
      of `submitForm` after the `fetch`. */
  function ReceiveOutcome(s: PaymentState, outcome: GatewayOutcome): (t: PaymentState)
    requires Valid(s) && s.loading
    ensures Valid(t) && !t.loading
    ensures t.phone == s.phone && t.requests == s.requests
    ensures t.error == "" || t.success == ""
    ensures outcome.Threw? ==> t.error == outcome.reason && t.success == ""
    ensures outcome.Replied? && !outcome.ok ==> t.error == Or(outcome.message, DefaultFailure) && t.success == ""
    ensures outcome.Replied? && outcome.ok ==> t.success == Or(outcome.message, DefaultSuccess) && t.error == ""
  {
    match outcome
    case Threw(reason) => s.(loading := false, error := reason)
    case Replied(ok, message, _) =>
      if !ok then s.(loading := false, error := Or(message, DefaultFailure))
      else s.(loading := false, success := Or(message, DefaultSuccess))
  }

  /** A whole submission from an idle screen: the press and, when a request
      went out, its outcome. */
  function Submit(s: PaymentState, price: int, outcome: GatewayOutcome): (t: PaymentState)
    requires Valid(s) && !s.loading
    ensures Valid(t) && !t.loading && t.phone == s.phone
    ensures t.error == "" || t.success == ""
    ensures !IsValidPhoneNumber(s.phone) ==> t.error == InvalidPhoneMessage && t.success == "" && t.requests == s.requests
    ensures IsValidPhoneNumber(s.phone) ==> t.requests == s.requests + [PaymentRequest(s.phone, price)]
  {
    var pressed := PressPay(s, price);
    if pressed.loading then ReceiveOutcome(pressed, outcome) else pressed
  }

  /** Only `message` is read from a reply: a refusal whose body carries its
      reason under `error` shows the default text. */
  lemma ErrorFieldIgnored(s: PaymentState, price: int, reason: string)
    requires Valid(s) && !s.loading && IsValidPhoneNumber(s.phone)
    ensures Submit(s, price, Replied(false, None, Some(reason))).error == DefaultFailure
  {
  }

  /** Every request a screen has made so far carries the same amount: the
      price of its product, whatever the submissions and their outcomes. */
  predicate ChargesPrice(s: PaymentState, price: int)
  {
    forall i :: 0 <= i < |s.requests| ==> s.requests[i].amount == price
  }

  lemma {:induction false} SubmissionsChargePrice(s: PaymentState, price: int, outcomes: seq<GatewayOutcome>)
    requires Valid(s) && !s.loading && ChargesPrice(s, price)
    ensures var t := SubmitAll(s, price, outcomes); ChargesPrice(t, price) && |t.requests| <= |s.requests| + |outcomes|
    decreases |outcomes|
  {
    if outcomes != [] {
      var t := Submit(s, price, outcomes[0]);
      assert ChargesPrice(t, price);
      SubmissionsChargePrice(t, price, outcomes[1..]);
    }
  }

  /** Several submissions in a row, each from the state the previous one left. */
  function SubmitAll(s: PaymentState, price: int, outcomes: seq<GatewayOutcome>): (t: PaymentState)
    requires Valid(s) && !s.loading
    ensures Valid(t) && !t.loading
    decreases |outcomes|
  {
    if outcomes == [] then s else SubmitAll(Submit(s, price, outcomes[0]), price, outcomes[1..])
  }

  /** What the component renders. */
  datatype Screen =
    | NoProductScreen(heading: string, link: string)
    | PaymentForm(amount: int, processing: bool, errorAlert: Option<string>, successAlert: Option<string>, payDisabled: bool)

  function View(product: Option<OrderedProduct>, s: PaymentState): (v: Screen)
    ensures product.None? <==> v == NoProductScreen(NoProductMessage, HomePath)
    ensures product.Some? ==> v.PaymentForm? && v.amount == product.value.Price()
    ensures v.PaymentForm? ==> v.payDisabled == s.loading && v.processing == s.loading
    ensures v.PaymentForm? ==> (v.errorAlert.Some? <==> s.error != "") && (v.successAlert.Some? <==> s.success != "")
  {
    match product
    case None => NoProductScreen(NoProductMessage, HomePath)
    case Some(p) =>
      PaymentForm(p.Price(), s.loading,
                  if s.error != "" then Some(s.error) else None,
                  if s.success != "" then Some(s.success) else None,
                  s.loading)
  }

  /** After any submission the screen shows at most one alert, and the button
      is enabled again. */
  lemma AtMostOneAlert(product: OrderedProduct, s: PaymentState, outcome: GatewayOutcome)
    requires Valid(s) && !s.loading
    ensures var v := View(Some(product), Submit(s, product.Price(), outcome));
            !v.payDisabled && (v.errorAlert.None? || v.successAlert.None?)
  {
  }

  /** The payment screen component with its four pieces of state. */
  class PaymentScreen {
    const product: Option<OrderedProduct>
    var phone: string
    var loading: bool
    var error: string
    var success: string
    var requests: seq<PaymentRequest>

    function State(): PaymentState
      reads this
    {
      PaymentState(phone, loading, error, success, requests)
    }

    /** The screen as the router opens it; `location.state?.product`. */
    constructor (state: Option<OrderIntent>)
      ensures product == (if state.Some? then Some(state.value.product) else None)
      ensures State() == Initial
    {
      product := if state.Some? then Some(state.value.product) else None;
      phone := "";
      loading := false;
      error := "";
      success := "";
      requests := [];
    }

    /** Typing in the phone field. */
    method EditPhone(value: string)
      modifies this
      ensures State() == old(State()).(phone := value)
    {
      phone := value;
    }

    /** The form's submit handler up to the request; the form exists only
        when there is a product. */
    method Pay() returns (request: Option<PaymentRequest>)
      requires product.Some? && Valid(State())
      modifies this
      ensures State() == PressPay(old(State()), product.value.Price())
      ensures request.None? ==> requests == old(requests)
      ensures request.Some? ==> requests == old(requests) + [request.value]
    {
      request := None;
      if loading {
        return;
      }
      error := "";
      success := "";
      if !IsValidPhoneNumber(phone) {
        error := InvalidPhoneMessage;
        return;
      }
      loading := true;
      var sent := PaymentRequest(phone, product.value.Price());
      requests := requests + [sent];
      request := Some(sent);
    }

    /** The gateway's outcome for the request in flight. */
    method Receive(outcome: GatewayOutcome)
      requires Valid(State()) && loading
      modifies this
      ensures State() == ReceiveOutcome(old(State()), outcome)
    {
      match outcome {
        case Threw(reason) =>
          error := reason;
        case Replied(ok, message, _) =>
          if !ok {
            error := Or(message, DefaultFailure);
          } else {
            success := Or(message, DefaultSuccess);
          }
      }
      loading := false;
    }
  }
}
