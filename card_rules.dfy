/**
 * Card rules shared by the payment route of the server and the two card forms of
 * the client: the server's `validateCardDetails`, the MM/YY expiry checks, the
 * keystroke formatters of the card fields, the grouped display of a card number,
 * the card-type label and the MM/YY <-> `20YY-MM-01` conversions.
 *
 * The clock is a parameter: `Today(year, month)` carries the two-digit year
 * (`getFullYear() % 100`) and the month 1-12 (`getMonth() + 1`).
 */
module CardRules {
  import opened Strings

  datatype Today = Today(year: int, month: int)

  /** `/^\d{2}\/\d{2}$/.test(s)`. */
  predicate ExpiryShape(s: string) {
    |s| == 5 && IsDigit(s[0]) && IsDigit(s[1]) && s[2] == '/' && IsDigit(s[3]) && IsDigit(s[4])
  }

  /** `Number(month)` after `s.split("/")`. */
  function ExpiryMonth(s: string): (m: int)
    requires ExpiryShape(s)
    ensures 0 <= m <= 99
  {
    assert DigitsExactly(s[..2], 2);
    TwoDigitValue(s[..2])
  }

  /** `Number(year)` after `s.split("/")`. */
  function ExpiryYear(s: string): (y: int)
    requires ExpiryShape(s)
    ensures 0 <= y <= 99
  {
    assert DigitsExactly(s[3..], 2);
    TwoDigitValue(s[3..])
  }

  /** The rejection test the server and both forms apply to a well-formed expiry. */
  predicate ExpiryRejected(month: int, year: int, today: Today) {
    year < today.year || (year == today.year && month < today.month) || month > 12 || month < 1
  }

  /** A well-formed expiry that passes the date test. */
  predicate ExpiryAccepted(s: string, today: Today) {
    ExpiryShape(s) && !ExpiryRejected(ExpiryMonth(s), ExpiryYear(s), today)
  }

  /**
   * An expiry is accepted exactly when it is well formed, names a month 1-12, and
   * its (year, month) is not earlier than today's.
   */
  lemma ExpiryAcceptedMeaning(s: string, today: Today)
    requires ExpiryShape(s)
    ensures ExpiryAccepted(s, today) <==>
      1 <= ExpiryMonth(s) <= 12 &&
      (ExpiryYear(s) > today.year || (ExpiryYear(s) == today.year && ExpiryMonth(s) >= today.month))
  {
  }

  /** The two-digit, zero-padded rendering of `n`. */
  function TwoDigits(n: nat): (s: string)
    requires n < 100
    ensures DigitsExactly(s, 2) && TwoDigitValue(s) == n
  {
    [DigitChar(n / 10), DigitChar(n % 10)]
  }

  /** The MM/YY text for a month and two-digit year. */
  function Expiry(month: nat, year: nat): (s: string)
    requires month < 100 && year < 100
    ensures ExpiryShape(s)
  {
    TwoDigits(month) + "/" + TwoDigits(year)
  }

  lemma {:induction false} ExpiryFields(month: nat, year: nat)
    requires month < 100 && year < 100
    ensures ExpiryMonth(Expiry(month, year)) == month
    ensures ExpiryYear(Expiry(month, year)) == year
  {
    var s := Expiry(month, year);
    assert s[..2] == TwoDigits(month);
    assert s[3..] == TwoDigits(year);
  }

  /** A card that expires this month is still accepted. */
  lemma {:induction false} CurrentMonthAccepted(today: Today)
    requires 0 <= today.year < 100 && 1 <= today.month <= 12
    ensures ExpiryAccepted(Expiry(today.month, today.year), today)
  {
    ExpiryFields(today.month, today.year);
  }

  /** A card that expired last month is rejected. */
  lemma {:induction false} LastMonthRejected(today: Today)
    requires 0 <= today.year < 100 && 2 <= today.month <= 12
    ensures !ExpiryAccepted(Expiry(today.month - 1, today.year), today)
  {
    ExpiryFields(today.month - 1, today.year);
  }

  /** A month outside 1-12 is rejected whatever the year. */
  lemma {:induction false} MonthOutOfRangeRejected(month: nat, year: nat, today: Today)
    requires month < 100 && year < 100 && (month == 0 || month > 12)
    ensures !ExpiryAccepted(Expiry(month, year), today)
  {
    ExpiryFields(month, year);
  }

  /** The card details a payment request carries. */
  datatype CardDetails = CardDetails(cardNumber: string, expiryDate: string, cardHolderName: string, cvv: string)

  /**
   * The server's `validateCardDetails`: the card number with every non-digit removed
   * is 16 digits, the CVV as sent is 3 digits, the expiry is an accepted MM/YY and
   * the trimmed holder name has at least 3 characters.
   */
  function ValidateCardDetails(d: CardDetails, today: Today): (ok: bool)
    ensures ok <==>
      DigitsExactly(DigitsOnly(d.cardNumber), 16) && DigitsExactly(d.cvv, 3) &&
      ExpiryAccepted(d.expiryDate, today) && |Trim(d.cardHolderName)| >= 3
  {
    if !DigitsExactly(DigitsOnly(d.cardNumber), 16) then false
    else if !DigitsExactly(d.cvv, 3) then false
    else if !ExpiryShape(d.expiryDate) then false
    else if ExpiryRejected(ExpiryMonth(d.expiryDate), ExpiryYear(d.expiryDate), today) then false
    else if |Trim(d.cardHolderName)| < 3 then false
    else true
  }

  /** The CVV is not stripped: a CVV with a blank in it is refused even when it holds three digits. */
  lemma PaddedCvvRejected(d: CardDetails, today: Today)
    requires d.cvv == " 123"
    ensures !ValidateCardDetails(d, today)
  {
  }

  /** The card number is stripped: a grouped number validates like its bare digits. */
  lemma {:induction false} GroupedNumberValidates(d: CardDetails, today: Today)
    requires AllDigits(d.cardNumber)
    ensures ValidateCardDetails(d.(cardNumber := FormatCardNumber(d.cardNumber)), today) ==
            ValidateCardDetails(d, today)
  {
    FormatCardNumberDigits(d.cardNumber);
  }

  // ---- keystroke formatters (`handleInputChange`) ----

  /** Card number input: `value.replace(/\D/g, "").substring(0, 16)`. */
  function FormatNumberInput(value: string): (r: string)
    ensures AllDigits(r) && |r| <= 16
    ensures r <= DigitsOnly(value)
    ensures |DigitsOnly(value)| >= 16 ==> DigitsExactly(r, 16)
  {
    Take(DigitsOnly(value), 16)
  }

  /** CVV input on the payment form: `value.replace(/\D/g, "").substring(0, 3)`. */
  function FormatCvvInput(value: string): (r: string)
    ensures AllDigits(r) && |r| <= 3
    ensures r <= DigitsOnly(value)
  {
    Take(DigitsOnly(value), 3)
  }

  /** Holder name input on the card page: `value.substring(0, 25)`. */
  function FormatHolderInput(value: string): (r: string)
    ensures |r| <= 25 && r <= value
    ensures |value| <= 25 ==> r == value
  {
    Take(value, 25)
  }

  /**
   * `d.replace(/(\d{2})(\d{0,2})/, (_, p1, p2) => p2 ? p1 + "/" + p2 : p1)` on a string
   * of digits: the first match starts at 0 when there are two digits, `p2` takes up
   * to two more, and whatever follows the match is kept.
   */
  function InsertExpirySlash(d: string): string {
    if |d| < 2 then d
    else
      var p2 := Take(d[2..], 2);
      (if p2 != [] then d[..2] + "/" + p2 else d[..2]) + d[2 + |p2|..]
  }

  /** Expiry input: digits only, the slash after the month, at most 5 characters. */
  function FormatExpiryInput(value: string): string {
    Take(InsertExpirySlash(DigitsOnly(value)), 5)
  }

  /**
   * The formatted expiry is the digits as typed while there are at most two of them,
   * and otherwise the first two digits, a slash and the next one or two digits.
   */
  lemma FormatExpiryInputMeaning(value: string)
    ensures var d := DigitsOnly(value);
      FormatExpiryInput(value) == if |d| <= 2 then d else d[..2] + "/" + d[2..if |d| < 4 then |d| else 4]
  {
    var d := DigitsOnly(value);
    if |d| > 2 {
      var p2 := Take(d[2..], 2);
      var x := d[..2] + "/" + p2 + d[2 + |p2|..];
      assert x == InsertExpirySlash(d);
      assert x[..if |d| < 4 then |d| + 1 else 5] == d[..2] + "/" + p2;
    }
  }

  /** The three cases of the expiry formatter as a user types. */
  lemma FormatExpiryInputExamples()
    ensures FormatExpiryInput("1225") == "12/25"
    ensures FormatExpiryInput("12") == "12"
    ensures FormatExpiryInput("12345") == "12/34"
  {
    FormatExpiryInputMeaning("1225");
    FormatExpiryInputMeaning("12");
    FormatExpiryInputMeaning("12345");
  }

  /** Feeding the formatted expiry back through the formatter (the next keystroke with nothing added) changes nothing. */
  lemma FormatExpiryInputIdempotent(value: string)
    ensures FormatExpiryInput(FormatExpiryInput(value)) == FormatExpiryInput(value)
  {
    var d := DigitsOnly(value);
    var f := FormatExpiryInput(value);
    FormatExpiryInputMeaning(value);
    FormatExpiryInputMeaning(f);
    if |d| > 2 {
      var tail := d[2..if |d| < 4 then |d| else 4];
      DigitsOnlyAppend(d[..2] + "/", tail);
      DigitsOnlyAppend(d[..2], "/");
      assert d[..2] + tail == d[..if |d| < 4 then |d| else 4];
    }
  }

  /** A formatted expiry with four digits in it has the MM/YY shape the validators ask for. */
  lemma FormattedExpiryShape(value: string)
    ensures |DigitsOnly(value)| >= 4 ==> ExpiryShape(FormatExpiryInput(value))
  {
    FormatExpiryInputMeaning(value);
  }

  // ---- display (`formatCardNumber`, `getCardType`) ----

  /** `d.replace(/(\d{4})(?=\d)/g, "$1 ")` on a string of digits: a blank after every full group of four that more digits follow. */
  function GroupDigits(d: string): (r: string)
    ensures d != [] ==> |r| == |d| + (|d| - 1) / 4
    decreases |d|
  {
    if |d| <= 4 then d else d[..4] + " " + GroupDigits(d[4..])
  }

  /** `formatCardNumber`: "" for an empty number, otherwise its digits in groups of four. */
  function FormatCardNumber(number: string): string {
    if number == [] then [] else GroupDigits(DigitsOnly(number))
  }

  /** Removing the blanks of a grouped digit string gives back the digits. */
  lemma {:induction false} GroupDigitsRemoveSpaces(d: string)
    requires AllDigits(d)
    ensures RemoveSpaces(GroupDigits(d)) == d
    decreases |d|
  {
    if |d| <= 4 {
      RemoveSpacesOfNoSpace(d);
    } else {
      GroupDigitsRemoveSpaces(d[4..]);
      RemoveSpacesAppend(d[..4] + " ", GroupDigits(d[4..]));
      RemoveSpacesAppend(d[..4], " ");
      RemoveSpacesOfNoSpace(d[..4]);
      assert d == d[..4] + d[4..];
    }
  }

  lemma {:induction false} RemoveSpacesOfNoSpace(s: string)
    requires HasNoSpace(s)
    ensures RemoveSpaces(s) == s
    decreases |s|
  {
    if s != [] {
      RemoveSpacesOfNoSpace(s[1..]);
      assert s == [s[0]] + s[1..];
    }
  }

  /** Stripping the non-digits of a grouped number gives the digits of the number. */
  lemma {:induction false} GroupDigitsDigits(d: string)
    requires AllDigits(d)
    ensures DigitsOnly(GroupDigits(d)) == d
    decreases |d|
  {
    if |d| > 4 {
      GroupDigitsDigits(d[4..]);
      DigitsOnlyAppend(d[..4] + " ", GroupDigits(d[4..]));
      DigitsOnlyAppend(d[..4], " ");
      assert d == d[..4] + d[4..];
    }
  }

  lemma FormatCardNumberDigits(number: string)
    ensures DigitsOnly(FormatCardNumber(number)) == DigitsOnly(number)
  {
    if number != [] {
      GroupDigitsDigits(DigitsOnly(number));
    }
  }

  /** A 16-digit number is shown as four groups: 19 characters whose blanks removed give the number. */
  lemma FormatSixteenDigits(number: string)
    requires DigitsExactly(number, 16)
    ensures |FormatCardNumber(number)| == 19
    ensures RemoveSpaces(FormatCardNumber(number)) == number
  {
    GroupDigitsRemoveSpaces(number);
  }

  /** `getCardType`: the label for the first character of the number. */
  function CardType(number: string): (kind: string)
    ensures number == [] <==> kind == ""
    ensures number != [] && number[0] == '4' ==> kind == "Visa"
    ensures number != [] && number[0] == '5' ==> kind == "MasterCard"
    ensures number != [] && number[0] == '3' ==> kind == "American Express"
    ensures number != [] && number[0] == '6' ==> kind == "Discover"
    ensures number != [] && number[0] !in {'3', '4', '5', '6'} ==> kind == "Credit Card"
  {
    if number == [] then ""
    else match number[0]
      case '4' => "Visa"
      case '5' => "MasterCard"
      case '3' => "American Express"
      case '6' => "Discover"
      case _ => "Credit Card"
  }

  // ---- stored date <-> MM/YY ----

  /** `20${year}-${month}-01` after `expiry.split("/")`, the date the server stores. */
  function ExpiryToDate(expiry: string): (date: string)
    requires ExpiryShape(expiry)
    ensures |date| == 10
  {
    "20" + expiry[3..] + "-" + expiry[..2] + "-01"
  }

  /** `${date.substring(5, 7)}/${date.substring(2, 4)}`, the MM/YY shown for a stored date. */
  function DateToExpiry(date: string): (expiry: string)
    ensures |date| >= 7 ==> |expiry| == 5
  {
    Substring(date, 5, 7) + "/" + Substring(date, 2, 4)
  }

  /** Storing an expiry and reading it back gives the MM/YY that was entered. */
  lemma ExpiryDateRoundTrip(expiry: string)
    requires ExpiryShape(expiry)
    ensures DateToExpiry(ExpiryToDate(expiry)) == expiry
  {
    var date := ExpiryToDate(expiry);
    assert date[5..7] == expiry[..2];
    assert date[2..4] == expiry[3..];
  }

  /** A stored expiry date as the card form writes it: `20YY-MM-01`. */
  predicate StoredDateShape(date: string) {
    |date| == 10 && date[..2] == "20" && IsDigit(date[2]) && IsDigit(date[3]) && date[4] == '-' &&
    IsDigit(date[5]) && IsDigit(date[6]) && date[7..] == "-01"
  }

  /** Reading a stored date as MM/YY and writing it back gives the same date. */
  lemma StoredDateRoundTrip(date: string)
    requires StoredDateShape(date)
    ensures ExpiryShape(DateToExpiry(date))
    ensures ExpiryToDate(DateToExpiry(date)) == date
  {
    var e := DateToExpiry(date);
    assert e == date[5..7] + "/" + date[2..4];
    assert ExpiryToDate(e) == date[..2] + date[2..4] + "-" + date[5..7] + date[7..];
  }
}
