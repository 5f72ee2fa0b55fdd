/**
 * The checkout page (`Payment.js`): the card form with its keystroke formatting,
 * the validation that checks only the CVV when a saved card is used and everything
 * but the CVV for a new card, the payment request it sends, and the reading of the
 * server's answer into success, "sold out" or an error.
 *
 * The network is a parameter: `FetchOrderDetails` receives the outcome of the two
 * loads, `HandleSubmit` returns the request, `ReceiveAnswer` receives the answer.
 * How the requests relate to the server's `validateCardDetails` and to the replies
 * of the payment handler is stated by the lemmas at the end.
 */
module PaymentPage {
  import opened Optional
  import opened Strings
  import opened CardRules
  import CardPage
  import Marketplace

  /** The inputs of the form, by their `name` attribute. */
  datatype Field = CardNumber | ExpiryDate | CardHolderName | Cvv

  /** The keys of the `errors` object: one per input, and `form` for the page-wide message. */
  datatype ErrorKey = Input(field: Field) | Form

  function Get(d: CardDetails, f: Field): string {
    match f
    case CardNumber => d.cardNumber
    case ExpiryDate => d.expiryDate
    case CardHolderName => d.cardHolderName
    case Cvv => d.cvv
  }

  /** `{ ...prev, [name]: value }`: one input replaced, the others kept. */
  function Set(d: CardDetails, f: Field, value: string): (r: CardDetails)
    ensures Get(r, f) == value
    ensures forall g :: g != f ==> Get(r, g) == Get(d, g)
  {
    match f
    case CardNumber => d.(cardNumber := value)
    case ExpiryDate => d.(expiryDate := value)
    case CardHolderName => d.(cardHolderName := value)
    case Cvv => d.(cvv := value)
  }

  /**
   * The `switch` of `handleInputChange`: number and expiry as on the card page, the
   * CVV keeps its first three digits, the holder name is taken as typed.
   */
  function FormatInput(f: Field, value: string): (r: string)
    ensures f == CardNumber ==> AllDigits(r) && |r| <= 16
    ensures f == Cvv ==> AllDigits(r) && |r| <= 3
    ensures f == Cvv ==> (DigitsExactly(r, 3) <==> |DigitsOnly(value)| >= 3)
    ensures f == ExpiryDate ==> r == CardPage.FormatInput(CardPage.ExpiryDate, value)
    ensures f == CardNumber ==> r == CardPage.FormatInput(CardPage.CardNumber, value)
    ensures f == CardHolderName ==> r == value
  {
    match f
    case CardNumber => FormatNumberInput(value)
    case ExpiryDate => FormatExpiryInput(value)
    case Cvv => FormatCvvInput(value)
    case CardHolderName => value
  }

  const CvvError := "CVV must be 3 digits"

  /**
   * The form passes `validateForm`: with a saved card, a 3-digit CVV; with a new
   * card, 16 digits once white space is removed, an accepted MM/YY and a trimmed
   * name of 3 or more. The CVV of a new card is not looked at.
   */
  predicate FormValid(useExistingCard: bool, d: CardDetails, today: Today) {
    if useExistingCard then DigitsExactly(d.cvv, 3)
    else DigitsExactly(RemoveSpaces(d.cardNumber), 16) && ExpiryAccepted(d.expiryDate, today) &&
         |Trim(d.cardHolderName)| >= 3
  }

  /** `errors` is what `validateForm` reports: exactly the failing inputs of the branch taken, each with its message. */
  predicate Reports(errors: map<ErrorKey, string>, useExistingCard: bool, d: CardDetails, today: Today) {
    Form !in errors &&
    (Input(Cvv) in errors <==> useExistingCard && !DigitsExactly(d.cvv, 3)) &&
    (Input(Cvv) in errors ==> errors[Input(Cvv)] == CvvError) &&
    (Input(CardNumber) in errors <==> !useExistingCard && !DigitsExactly(RemoveSpaces(d.cardNumber), 16)) &&
    (Input(CardNumber) in errors ==> errors[Input(CardNumber)] == CardPage.NumberError) &&
    (Input(ExpiryDate) in errors <==> !useExistingCard && !ExpiryAccepted(d.expiryDate, today)) &&
    (Input(ExpiryDate) in errors ==>
       errors[Input(ExpiryDate)] == if ExpiryShape(d.expiryDate) then CardPage.ExpiryDateError else CardPage.ExpiryFormatError) &&
    (Input(CardHolderName) in errors <==> !useExistingCard && |Trim(d.cardHolderName)| < 3) &&
    (Input(CardHolderName) in errors ==> errors[Input(CardHolderName)] == CardPage.HolderError)
  }

  /** The `newErrors` object of `validateForm`, filled branch by branch. */
  method FormErrors(useExistingCard: bool, d: CardDetails, today: Today) returns (errors: map<ErrorKey, string>)
    ensures Reports(errors, useExistingCard, d, today)
    ensures errors == map[] <==> FormValid(useExistingCard, d, today)
  {
    if useExistingCard {
      errors := map[];
      if !DigitsExactly(d.cvv, 3) {
        errors := errors[Input(Cvv) := CvvError];
      }
    } else {
      errors := NewCardErrors(d, today);
    }
  }

  /** One `if (...) newErrors[key] = message` of `validateForm`, for a key not yet set. */
  method Put(errors: map<ErrorKey, string>, key: ErrorKey, bad: bool, message: string) returns (errors': map<ErrorKey, string>)
    requires key !in errors
    ensures key in errors' <==> bad
    ensures bad ==> errors'[key] == message
    ensures forall k | k != key :: k in errors' <==> k in errors
    ensures forall k | k != key && k in errors :: errors'[k] == errors[k]
  {
    errors' := errors;
    if bad {
      errors' := errors'[key := message];
    }
  }

  /**
   * The new-card branch of `validateForm`: number, expiry and holder, in that order.
   * The expiry's two checks are one step: a malformed value gets the format
   * message, a well-formed but past or impossible one the date message.
   */
  method NewCardErrors(d: CardDetails, today: Today) returns (errors: map<ErrorKey, string>)
    ensures Reports(errors, false, d, today)
    ensures errors == map[] <==> FormValid(false, d, today)
  {
    var numberBad := !DigitsExactly(RemoveSpaces(d.cardNumber), 16);
    var expiryBad := !ExpiryAccepted(d.expiryDate, today);
    var holderBad := |Trim(d.cardHolderName)| < 3;
    var expiryMessage := if ExpiryShape(d.expiryDate) then CardPage.ExpiryDateError else CardPage.ExpiryFormatError;
    errors := NewCardSteps(numberBad, expiryBad, expiryMessage, holderBad);
  }

  /** The three steps of the new-card branch, on the outcome of each check. */
  method NewCardSteps(numberBad: bool, expiryBad: bool, expiryMessage: string, holderBad: bool)
    returns (errors: map<ErrorKey, string>)
    ensures Input(CardNumber) in errors <==> numberBad
    ensures Input(ExpiryDate) in errors <==> expiryBad
    ensures Input(CardHolderName) in errors <==> holderBad
    ensures numberBad ==> errors[Input(CardNumber)] == CardPage.NumberError
    ensures expiryBad ==> errors[Input(ExpiryDate)] == expiryMessage
    ensures holderBad ==> errors[Input(CardHolderName)] == CardPage.HolderError
    ensures forall k | k != Input(CardNumber) && k != Input(ExpiryDate) && k != Input(CardHolderName) :: k !in errors
    ensures errors == map[] <==> !numberBad && !expiryBad && !holderBad
  {
    var e1 := Put(map[], Input(CardNumber), numberBad, CardPage.NumberError);
    var e2 := Put(e1, Input(ExpiryDate), expiryBad, expiryMessage);
    errors := Put(e2, Input(CardHolderName), holderBad, CardPage.HolderError);
    if !numberBad && !expiryBad && !holderBad {
      assert forall k :: k !in errors;
    }
  }

  /**
   * The `cardDetails` of the payment request: the saved card's number (digits only)
   * and holder with the form's expiry and CVV, or the form's number (digits only),
   * expiry, trimmed holder and CVV.
   */
  function Payload(saved: Option<CardPage.StoredCard>, useExistingCard: bool, d: CardDetails): (p: CardDetails)
    requires useExistingCard ==> saved.Some?
    ensures AllDigits(p.cardNumber)
    ensures p.expiryDate == d.expiryDate && p.cvv == d.cvv
    ensures useExistingCard ==> p.cardNumber == DigitsOnly(saved.value.cardNumber) &&
                                p.cardHolderName == saved.value.cardHolderName
    ensures !useExistingCard ==> p.cardNumber == DigitsOnly(d.cardNumber) && p.cardHolderName == Trim(d.cardHolderName)
  {
    if useExistingCard then
      CardDetails(DigitsOnly(saved.value.cardNumber), d.expiryDate, saved.value.cardHolderName, d.cvv)
    else
      CardDetails(DigitsOnly(d.cardNumber), d.expiryDate, Trim(d.cardHolderName), d.cvv)
  }

  /** The parts of the server's answer the page reads: `response.ok`, `message` and `status`. */
  datatype Answer = Answer(ok: bool, message: Option<string>, status: Option<string>)

  datatype Outcome = Paid | SoldOut | Failed(message: string)

  /** `message` is there and truthy, that is, not empty. */
  predicate Truthy(m: Option<string>) {
    m.Some? && m.value != ""
  }

  /**
   * How `handleSubmit` reads the answer: a refusal that mentions "sold out" in any
   * case is the sold-out outcome, an OK answer with status `Success` is a payment,
   * anything else an error carrying the server's message or a fixed one.
   */
  function Classify(a: Answer): (o: Outcome)
    ensures o == SoldOut <==> !a.ok && Truthy(a.message) && Contains(ToLower(a.message.value), "sold out")
    ensures o == Paid <==> a.ok && a.status == Some("Success")
    ensures o.Failed? && Truthy(a.message) ==> o.message == a.message.value
  {
    if !a.ok then
      if Truthy(a.message) && Contains(ToLower(a.message.value), "sold out") then SoldOut
      else Failed(if Truthy(a.message) then a.message.value else "Payment failed. Please try again.")
    else if a.status == Some("Success") then Paid
    else Failed(if Truthy(a.message) then a.message.value else "Payment was not successful")
  }

  const SoldOutMessage := "Sorry, Item is Sold Out..."
  const MissingOrderMessage := "Order ID is missing"

  class Page {
    const orderId: Option<string>
    var loading: bool
    var error: Option<string>
    var cardDetails: CardDetails
    var errors: map<ErrorKey, string>
    var existingCard: Option<CardPage.StoredCard>
    var useExistingCard: bool
    var paymentSuccess: bool

    /** A saved card is used only when one was loaded. */
    ghost predicate Valid()
      reads this
    {
      useExistingCard ==> existingCard.Some?
    }

    constructor (orderId: Option<string>)
      ensures Valid()
      ensures this.orderId == orderId && loading && error == None
      ensures cardDetails == CardDetails("", "", "", "") && errors == map[]
      ensures existingCard == None && !useExistingCard && !paymentSuccess
    {
      this.orderId := orderId;
      loading := true;
      error := None;
      cardDetails := CardDetails("", "", "", "");
      errors := map[];
      existingCard := None;
      useExistingCard := false;
      paymentSuccess := false;
    }

    /**
     * `fetchOrderDetails`. Without an order id the page shows an error and fetches
     * nothing; without a stored token it fetches nothing and goes to the login page.
     * Otherwise `orderError` is the failure of the order load, if any, and
     * `saved` the card the card load answered with: a saved card is selected and
     * pre-fills the form with its number, its date as MM/YY, its holder and an
     * empty CVV.
     */
    method FetchOrderDetails(hasToken: bool, orderError: Option<string>, saved: Option<CardPage.StoredCard>)
      returns (fetched: bool, toLogin: bool)
      requires Valid()
      modifies this
      ensures Valid()
      ensures !loading
      ensures fetched <==> Truthy(orderId) && hasToken
      ensures toLogin <==> Truthy(orderId) && !hasToken
      ensures !Truthy(orderId) ==>
        error == Some(MissingOrderMessage) && cardDetails == old(cardDetails) &&
        existingCard == old(existingCard) && useExistingCard == old(useExistingCard)
      ensures toLogin ==>
        error == old(error) && cardDetails == old(cardDetails) &&
        existingCard == old(existingCard) && useExistingCard == old(useExistingCard)
      ensures fetched && orderError.Some? ==>
        error == orderError && cardDetails == old(cardDetails) &&
        existingCard == old(existingCard) && useExistingCard == old(useExistingCard)
      ensures fetched && orderError.None? ==> error == None
      ensures fetched && orderError.None? && saved.Some? ==>
        existingCard == saved && useExistingCard &&
        cardDetails == CardDetails(saved.value.cardNumber, DateToExpiry(saved.value.expiryDate), saved.value.cardHolderName, "")
      ensures fetched && orderError.None? && saved.None? ==>
        cardDetails == old(cardDetails) && existingCard == old(existingCard) && useExistingCard == old(useExistingCard)
      ensures errors == old(errors) && paymentSuccess == old(paymentSuccess)
    {
      toLogin := false;
      if !Truthy(orderId) {
        error := Some(MissingOrderMessage);
        loading := false;
        return false, toLogin;
      }
      if !hasToken {
        loading := false;
        return false, true;
      }
      fetched := true;
      if orderError.Some? {
        error := orderError;
      } else {
        if saved.Some? {
          existingCard := saved;
          useExistingCard := true;
          cardDetails := CardDetails(saved.value.cardNumber, DateToExpiry(saved.value.expiryDate), saved.value.cardHolderName, "");
        }
        error := None;
      }
      loading := false;
    }

    /**
     * The "Use this card" checkbox, rendered only while a saved card is loaded:
     * the flag takes the box's new state, and nothing else changes.
     */
    method SetUseExistingCard(checked: bool)
      requires Valid() && existingCard.Some?
      modifies this`useExistingCard
      ensures Valid()
      ensures useExistingCard == checked
    {
      useExistingCard := checked;
    }

    /** `handleInputChange`: the input takes its formatted value and loses a pending error message. */
    method HandleInputChange(f: Field, value: string)
      requires Valid()
      modifies this`cardDetails, this`errors
      ensures Valid()
      ensures cardDetails == Set(old(cardDetails), f, FormatInput(f, value))
      ensures Input(f) in old(errors) && old(errors)[Input(f)] != "" ==> errors == old(errors)[Input(f) := ""]
      ensures !(Input(f) in old(errors) && old(errors)[Input(f)] != "") ==> errors == old(errors)
    {
      cardDetails := Set(cardDetails, f, FormatInput(f, value));
      if Input(f) in errors && errors[Input(f)] != "" {
        errors := errors[Input(f) := ""];
      }
    }

    /** `validateForm`: the error map is replaced by the report on the current form. */
    method ValidateForm(today: Today) returns (valid: bool)
      requires Valid()
      modifies this`errors
      ensures Valid()
      ensures Reports(errors, useExistingCard, cardDetails, today)
      ensures valid <==> FormValid(useExistingCard, cardDetails, today)
    {
      errors := FormErrors(useExistingCard, cardDetails, today);
      valid := |errors| == 0;
      assert valid <==> errors == map[] by {
        if errors != map[] {
          var k :| k in errors;
        }
      }
    }

    /**
     * `handleSubmit` up to the request: nothing is sent for an invalid form; a valid
     * one clears the errors and sends `Payload`, or goes to the login page when no
     * token is stored.
     */
    method HandleSubmit(hasToken: bool, today: Today) returns (request: Option<CardDetails>, toLogin: bool)
      requires Valid()
      modifies this`errors
      ensures Valid()
      ensures request.Some? <==> FormValid(useExistingCard, cardDetails, today) && hasToken
      ensures toLogin <==> FormValid(useExistingCard, cardDetails, today) && !hasToken
      ensures request.Some? ==> request.value == Payload(existingCard, useExistingCard, cardDetails)
      ensures FormValid(useExistingCard, cardDetails, today) ==> errors == map[]
      ensures !FormValid(useExistingCard, cardDetails, today) ==> Reports(errors, useExistingCard, cardDetails, today)
    {
      toLogin := false;
      var valid := ValidateForm(today);
      if !valid {
        return None, toLogin;
      }
      errors := map[];
      if !hasToken {
        return None, true;
      }
      request := Some(Payload(existingCard, useExistingCard, cardDetails));
    }

    /** `handleSubmit` after the answer: success, the sold-out message, or the error under `form`. */
    method ReceiveAnswer(a: Answer)
      requires Valid()
      modifies this`errors, this`paymentSuccess
      ensures Valid()
      ensures paymentSuccess <==> old(paymentSuccess) || Classify(a) == Paid
      ensures Classify(a) == Paid ==> errors == old(errors)
      ensures Classify(a) == SoldOut ==> errors == map[Form := SoldOutMessage]
      ensures Classify(a).Failed? ==> errors == map[Form := Classify(a).message]
    {
      match Classify(a)
      case Paid =>
        paymentSuccess := true;
      case SoldOut =>
        errors := map[Form := SoldOutMessage];
      case Failed(m) =>
        errors := map[Form := m];
    }
  }

  // ---- the page and the server ----

  /**
   * A new card the page accepts, sent with a 3-digit CVV, passes the server's
   * `validateCardDetails`: the page's checks on number, expiry and name are the
   * server's, applied to the payload.
   */
  lemma NewCardAcceptedByServer(d: CardDetails, today: Today)
    requires FormValid(false, d, today) && DigitsExactly(d.cvv, 3)
    ensures ValidateCardDetails(Payload(None, false, d), today)
  {
    DigitsOnlyRemoveSpaces(d.cardNumber);
    TrimIdempotent(d.cardHolderName);
  }

  /**
   * The page does not check the CVV of a new card: a form with an empty CVV is
   * accepted and sent, and the server refuses it.
   */
  lemma NewCardWithoutCvvRefused(d: CardDetails, today: Today)
    requires FormValid(false, d, today) && d.cvv == ""
    ensures !ValidateCardDetails(Payload(None, false, d), today)
  {
  }

  /**
   * With a saved card only the CVV is checked: a saved card whose expiry has passed
   * is accepted by the page with any 3-digit CVV and refused by the server.
   */
  lemma ExpiredSavedCardRefused(saved: CardPage.StoredCard, d: CardDetails, today: Today)
    requires DigitsExactly(d.cvv, 3) && !ExpiryAccepted(d.expiryDate, today)
    ensures FormValid(true, d, today)
    ensures !ValidateCardDetails(Payload(Some(saved), true, d), today)
  {
  }

  /** The answer the payment handler's reply becomes: OK for 200, with status `Success` then. */
  function PaymentAnswer(r: Marketplace.Reply): (a: Answer)
    ensures a.ok <==> r.code == 200
    ensures a.message == Some(r.message)
  {
    Answer(r.code == 200, Some(r.message), if r.code == 200 then Some("Success") else None)
  }

  /** A successful payment reads as paid. */
  lemma SuccessReplyIsPaid(message: string)
    ensures Classify(PaymentAnswer(Marketplace.Reply(200, message))) == Paid
  {
  }

  /** The handler's "Item is sold out" refusal reads as the sold-out outcome. */
  lemma SoldOutReplyIsSoldOut()
    ensures Classify(PaymentAnswer(Marketplace.Reply(400, "Item is sold out"))) == SoldOut
  {
    var m := ToLower("Item is sold out");
    assert m[8..16] == "sold out";
    assert OccursAt(m, "sold out", 8);
  }

  /** Any other refusal of the handler reads as an error carrying the handler's message. */
  lemma OtherRefusalIsFailure(r: Marketplace.Reply)
    requires r.code != 200 && r.message != "" && !Contains(ToLower(r.message), "sold out")
    ensures Classify(PaymentAnswer(r)) == Failed(r.message)
  {
  }
}
