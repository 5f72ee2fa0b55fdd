/**
 * The saved-card page (`Card.js`): the three-field form with its keystroke
 * formatting, the validation that fills the error map field by field, the request
 * a valid form sends (PUT when a card is already on file, POST otherwise, the
 * expiry converted to `20YY-MM-01`), and the state updates after loading or
 * deleting the card.
 *
 * The network is a parameter: `LoadCard` receives the card the server answered
 * with, `HandleSubmit` returns the request it would send.
 */
module CardPage {
  import opened Optional
  import opened Strings
  import opened CardRules

  /** The inputs of the form, by their `name` attribute. */
  datatype Field = CardNumber | ExpiryDate | CardHolderName

  /** The keys of the `errors` object: one per input, and `submit` for a refused request. */
  datatype ErrorKey = Input(field: Field) | Submit

  datatype CardForm = CardForm(cardNumber: string, expiryDate: string, cardHolderName: string)

  function Get(form: CardForm, f: Field): string {
    match f
    case CardNumber => form.cardNumber
    case ExpiryDate => form.expiryDate
    case CardHolderName => form.cardHolderName
  }

  /** `{ ...prev, [name]: value }`: one input replaced, the others kept. */
  function Set(form: CardForm, f: Field, value: string): (r: CardForm)
    ensures Get(r, f) == value
    ensures forall g :: g != f ==> Get(r, g) == Get(form, g)
  {
    match f
    case CardNumber => form.(cardNumber := value)
    case ExpiryDate => form.(expiryDate := value)
    case CardHolderName => form.(cardHolderName := value)
  }

  /**
   * The formatting `handleInputChange` applies to a new input value: the number
   * keeps its first 16 digits, the expiry becomes MM/YY as typed, the holder name
   * is cut to 25 characters.
   */
  function FormatInput(f: Field, value: string): (r: string)
    ensures f == CardNumber ==> AllDigits(r) && |r| <= 16
    ensures f == CardNumber ==> (DigitsExactly(r, 16) <==> |DigitsOnly(value)| >= 16)
    ensures f == ExpiryDate && |DigitsOnly(value)| >= 4 ==> ExpiryShape(r)
    ensures f == ExpiryDate ==> FormatExpiryInput(r) == r
    ensures f == CardHolderName ==> |r| <= 25 && r <= value
  {
    match f
    case CardNumber => FormatNumberInput(value)
    case ExpiryDate =>
      FormatExpiryInputIdempotent(value);
      FormattedExpiryShape(value);
      FormatExpiryInput(value)
    case CardHolderName => FormatHolderInput(value)
  }

  const NumberError := "Card number must be 16 digits"
  const ExpiryFormatError := "Expiry date must be in MM/YY format"
  const ExpiryDateError := "Invalid expiry date"
  const HolderError := "Card holder name must be at least 3 characters"

  /** The form passes `validateForm`: 16 digits as typed, an accepted MM/YY, a trimmed name of 3 or more. */
  predicate FormValid(form: CardForm, today: Today) {
    DigitsExactly(form.cardNumber, 16) && ExpiryAccepted(form.expiryDate, today) &&
    |Trim(form.cardHolderName)| >= 3
  }

  /** `errors` is what `validateForm` reports for `form`: exactly the failing inputs, each with its message. */
  predicate Reports(errors: map<ErrorKey, string>, form: CardForm, today: Today) {
    Submit !in errors &&
    (Input(CardNumber) in errors <==> !DigitsExactly(form.cardNumber, 16)) &&
    (Input(CardNumber) in errors ==> errors[Input(CardNumber)] == NumberError) &&
    (Input(ExpiryDate) in errors <==> !ExpiryAccepted(form.expiryDate, today)) &&
    (Input(ExpiryDate) in errors ==>
       errors[Input(ExpiryDate)] == if ExpiryShape(form.expiryDate) then ExpiryDateError else ExpiryFormatError) &&
    (Input(CardHolderName) in errors <==> |Trim(form.cardHolderName)| < 3) &&
    (Input(CardHolderName) in errors ==> errors[Input(CardHolderName)] == HolderError)
  }

  /** The `newErrors` object of `validateForm`, filled input by input. */
  method FormErrors(form: CardForm, today: Today) returns (errors: map<ErrorKey, string>)
    ensures Reports(errors, form, today)
    ensures errors == map[] <==> FormValid(form, today)
  {
    errors := map[];
    if !DigitsExactly(form.cardNumber, 16) {
      errors := errors[Input(CardNumber) := NumberError];
    }
    if !ExpiryShape(form.expiryDate) {
      errors := errors[Input(ExpiryDate) := ExpiryFormatError];
    } else if ExpiryRejected(ExpiryMonth(form.expiryDate), ExpiryYear(form.expiryDate), today) {
      errors := errors[Input(ExpiryDate) := ExpiryDateError];
    }
    if |Trim(form.cardHolderName)| < 3 {
      errors := errors[Input(CardHolderName) := HolderError];
    }
    if FormValid(form, today) {
      assert errors == map[];
    } else {
      assert errors != map[] by {
        if !DigitsExactly(form.cardNumber, 16) { assert Input(CardNumber) in errors; }
        else if !ExpiryAccepted(form.expiryDate, today) { assert Input(ExpiryDate) in errors; }
        else { assert Input(CardHolderName) in errors; }
      }
    }
  }

  /** The card row `GET /api/user/card` answers with. */
  datatype StoredCard = StoredCard(cardNumber: string, expiryDate: string, cardHolderName: string)

  datatype Verb = Post | Put

  /** The body and verb of the save request. */
  datatype SaveRequest = SaveRequest(verb: Verb, cardNumber: string, expiryDate: string, cardHolderName: string)

  class Page {
    var card: Option<StoredCard>
    var form: CardForm
    var errors: map<ErrorKey, string>

    constructor ()
      ensures card == None && form == CardForm("", "", "") && errors == map[]
    {
      card := None;
      form := CardForm("", "", "");
      errors := map[];
    }

    /**
     * `fetchCard` after an OK response carrying `data`: the card is kept, and a card
     * fills the form with its number, its date as MM/YY and its holder name. The route
     * answers 404 when no card is on file, so the page's `response.ok` branch does not
     * run then and the page stays as it was; `data` = None is the falsy body the
     * page's own `if (data)` guards against.
     */
    method LoadCard(data: Option<StoredCard>)
      modifies this
      ensures card == data && errors == old(errors)
      ensures data.Some? ==> form == CardForm(data.value.cardNumber, DateToExpiry(data.value.expiryDate), data.value.cardHolderName)
      ensures data.None? ==> form == old(form)
    {
      card := data;
      if data.Some? {
        form := CardForm(data.value.cardNumber, DateToExpiry(data.value.expiryDate), data.value.cardHolderName);
      }
    }

    /** `handleInputChange`: the input takes its formatted value and loses a pending error message. */
    method HandleInputChange(f: Field, value: string)
      modifies this
      ensures form == Set(old(form), f, FormatInput(f, value))
      ensures Get(form, f) == FormatInput(f, value)
      ensures forall g :: g != f ==> Get(form, g) == Get(old(form), g)
      ensures Input(f) in old(errors) && old(errors)[Input(f)] != "" ==> errors == old(errors)[Input(f) := ""]
      ensures !(Input(f) in old(errors) && old(errors)[Input(f)] != "") ==> errors == old(errors)
      ensures card == old(card)
    {
      form := Set(form, f, FormatInput(f, value));
      if Input(f) in errors && errors[Input(f)] != "" {
        errors := errors[Input(f) := ""];
      }
    }

    /** `validateForm`: the error map is replaced by the report on the current form. */
    method ValidateForm(today: Today) returns (valid: bool)
      modifies this`errors
      ensures Reports(errors, form, today)
      ensures valid <==> FormValid(form, today)
      ensures valid <==> errors == map[]
    {
      var newErrors := FormErrors(form, today);
      errors := newErrors;
      valid := |newErrors| == 0;
      assert valid <==> newErrors == map[] by {
        if newErrors != map[] {
          var k :| k in newErrors;
        }
      }
    }

    /**
     * `handleSubmit`: an invalid form sends nothing; a valid one sends its number and
     * holder as typed and its expiry as `20YY-MM-01`, with PUT when a card is on
     * file and POST otherwise.
     */
    method HandleSubmit(today: Today) returns (request: Option<SaveRequest>)
      modifies this`errors
      ensures Reports(errors, form, today)
      ensures request.Some? <==> FormValid(form, today)
      ensures request.Some? ==> request.value.verb == (if card.Some? then Put else Post)
      ensures request.Some? ==> request.value.cardNumber == form.cardNumber &&
                                request.value.cardHolderName == form.cardHolderName
      ensures request.Some? ==> StoredDateShape(request.value.expiryDate) &&
                                DateToExpiry(request.value.expiryDate) == form.expiryDate
    {
      var valid := ValidateForm(today);
      if !valid {
        return None;
      }
      var date := ExpiryToDate(form.expiryDate);
      ExpiryDateRoundTrip(form.expiryDate);
      request := Some(SaveRequest(if card.Some? then Put else Post, form.cardNumber, date, form.cardHolderName));
    }

    /** A refused save: the server's message is shown under `submit`. */
    method SubmitRefused(message: string)
      modifies this`errors
      ensures errors == old(errors)[Submit := message]
    {
      errors := errors[Submit := message];
    }

    /** `handleDeleteCard` after an OK response: no card, an empty form. */
    method CardDeleted()
      modifies this
      ensures card == None && form == CardForm("", "", "") && errors == old(errors)
    {
      card := None;
      form := CardForm("", "", "");
    }
  }

  /**
   * A card saved from the form and loaded again fills the form with the values that
   * were sent: the stored date reads back as the MM/YY that was typed.
   */
  lemma SavedCardReloads(form: CardForm, today: Today)
    requires FormValid(form, today)
    ensures form.expiryDate == DateToExpiry(ExpiryToDate(form.expiryDate))
    ensures StoredDateShape(ExpiryToDate(form.expiryDate))
  {
    ExpiryDateRoundTrip(form.expiryDate);
  }

  /** A form filled from a stored card sends back the very date that was stored. */
  lemma LoadedDateResent(c: StoredCard)
    requires StoredDateShape(c.expiryDate)
    ensures ExpiryShape(DateToExpiry(c.expiryDate))
    ensures ExpiryToDate(DateToExpiry(c.expiryDate)) == c.expiryDate
  {
    StoredDateRoundTrip(c.expiryDate);
  }
}
