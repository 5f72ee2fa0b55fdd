/**
 * The form that lists an item for sale (`ListItem.js`): the validation that fills
 * the error map (with the description's length message overwriting its "required"
 * message), the category input that resets the subcategory, image removal, and the
 * reset after a successful listing.
 *
 * The price check compares `Number.parseFloat(price)` with 0; only the sign of the
 * parsed number and whether it is zero matter, and `ParseFloat` computes those.
 */
module ListItemPage {
  import opened Optional
  import opened Strings

  // ---- parseFloat, as far as `<= 0` can tell ----

  /** The longest run of digits `s` starts with. */
  function LeadingDigits(s: string): (r: string)
    ensures r <= s && AllDigits(r)
    ensures |r| < |s| ==> !IsDigit(s[|r|])
    decreases |s|
  {
    if s != [] && IsDigit(s[0]) then [s[0]] + LeadingDigits(s[1..]) else []
  }

  predicate AllZeros(s: string) {
    forall i | 0 <= i < |s| :: s[i] == '0'
  }

  /** What `Number.parseFloat` yields: `NaN`, or a number known by its sign and whether it is zero. */
  datatype Parsed = NotANumber | Number(negative: bool, zero: bool)

  /**
   * `Number.parseFloat(s)`: leading white space is skipped, then an optional sign,
   * then `Infinity` or the longest prefix of digits with at most one `.`; without
   * a digit in that prefix the result is `NaN`. An exponent is not read.
   */
  function ParseFloat(s: string): Parsed {
    var t := TrimStart(s);
    var negative := t != [] && t[0] == '-';
    var r := if t != [] && (t[0] == '-' || t[0] == '+') then t[1..] else t;
    if StartsInfinity(r) then Number(negative, false)
    else
      var whole := LeadingDigits(r);
      var rest := r[|whole|..];
      var fraction := if rest != [] && rest[0] == '.' then LeadingDigits(rest[1..]) else [];
      if whole == [] && fraction == [] then NotANumber
      else Number(negative, AllZeros(whole + fraction))
  }

  predicate StartsInfinity(r: string) {
    |r| >= 8 && r[..8] == "Infinity"
  }

  /** Text that does not start with white space is left as it is by the skip. */
  lemma NoLeadingSpace(s: string)
    requires s != [] && !IsSpace(s[0])
    ensures TrimStart(s) == s
  {
  }

  lemma NotInfinity(s: string)
    requires s != [] && s[0] != 'I'
    ensures !StartsInfinity(s)
  {
    if |s| >= 8 {
      assert s[..8][0] == s[0];
    }
  }

  /** `Number.parseFloat(price) <= 0`: false for `NaN`, true for a negative number or a zero. */
  predicate NotPositive(p: Parsed) {
    p.Number? && (p.negative || p.zero)
  }

  /** A whole number typed as its decimal digits is refused exactly when it is 0. */
  lemma NaturalPrice(n: nat)
    ensures ParseFloat(NatToString(n)) == Number(false, n == 0)
    ensures NotPositive(ParseFloat(NatToString(n))) <==> n == 0
  {
    var s := NatToString(n);
    NoLeadingSpace(s);
    assert !StartsInfinity(s);
    LeadingAllDigits(s);
    assert s[|s|..] == [];
    assert s + [] == s;
    if n == 0 {
      assert s == "0";
    } else if |s| == 1 {
      assert s == [DigitChar(n)];
      assert DigitValue(s[0]) == n;
    } else {
      assert s[0] != '0';
    }
  }

  /** A run of digits is its own leading digits. */
  lemma {:induction false} LeadingAllDigits(s: string)
    requires AllDigits(s)
    ensures LeadingDigits(s) == s
    decreases |s|
  {
    if s != [] {
      LeadingAllDigits(s[1..]);
      assert [s[0]] + s[1..] == s;
    }
  }

  /** A minus sign before any digits gives a number `<= 0`, so the price is refused. */
  lemma NegativePrice(digits: string)
    requires digits != [] && AllDigits(digits)
    ensures NotPositive(ParseFloat("-" + digits))
  {
    var s := "-" + digits;
    NoLeadingSpace(s);
    assert s[1..] == digits;
    NotInfinity(digits);
    LeadingAllDigits(digits);
  }

  /** Text that starts with a letter parses to `NaN`, which `<= 0` does not catch. */
  lemma LetterPrice(s: string)
    requires s != [] && 'a' <= s[0] <= 'z'
    ensures ParseFloat(s) == NotANumber
  {
    NoLeadingSpace(s);
    NotInfinity(s);
  }

  // ---- the form ----

  /** The inputs, by their `name` attribute; `image` is the file input. */
  datatype Field = ItemName | Description | Price | Category | Subcategory | Image

  /** The form state; `image` is the chosen file, null when there is none. */
  datatype ItemForm = ItemForm(
    itemName: string, description: string, price: string, category: string, subcategory: string,
    image: Option<string>)

  const EmptyForm := ItemForm("", "", "", "", "", None)

  const NameError := "Item name is required and must be less than 50 characters"
  const DescriptionRequired := "Description is required"
  const DescriptionLong := "Description must be less than 250 characters"
  const PriceError := "Valid price is required"
  const CategoryRequired := "Category is required"
  const SubcategoryRequired := "Subcategory is required"
  const ImageRequired := "Image is required"

  /** `!price || Number.parseFloat(price) <= 0`. */
  predicate PriceRefused(price: string) {
    price == "" || NotPositive(ParseFloat(price))
  }

  /**
   * The message `validateForm` leaves for one field. For the description the later
   * check wins: a value over 250 characters carries the length message even when
   * it is blank.
   */
  function FieldError(f: ItemForm, field: Field): Option<string> {
    match field
    case ItemName =>
      if Blank(f.itemName) || |f.itemName| > 50 then Some(NameError) else None
    case Description =>
      if |f.description| > 250 then Some(DescriptionLong)
      else if Blank(f.description) then Some(DescriptionRequired)
      else None
    case Price =>
      if PriceRefused(f.price) then Some(PriceError) else None
    case Category =>
      if f.category == "" then Some(CategoryRequired) else None
    case Subcategory =>
      if f.subcategory == "" then Some(SubcategoryRequired) else None
    case Image =>
      if f.image.None? then Some(ImageRequired) else None
  }

  /** The form passes `validateForm`: no field has a message. */
  predicate FormValid(f: ItemForm) {
    forall field :: FieldError(f, field) == None
  }

  /**
   * A valid listing has a name of at most 50 characters and a description of at
   * most 250 that are not blank, a price that does not parse to a number `<= 0`,
   * a category, a subcategory and an image.
   */
  lemma FormValidMeaning(f: ItemForm)
    ensures FormValid(f) <==>
      !Blank(f.itemName) && |f.itemName| <= 50 &&
      !Blank(f.description) && |f.description| <= 250 &&
      !PriceRefused(f.price) &&
      f.category != "" && f.subcategory != "" && f.image.Some?
  {
    assert FormValid(f) <==>
      (FieldError(f, ItemName) == None && FieldError(f, Description) == None &&
       FieldError(f, Price) == None && FieldError(f, Category) == None &&
       FieldError(f, Subcategory) == None && FieldError(f, Image) == None);
  }

  /** `errors` holds the field's message under the field, and nothing when it passes. */
  predicate Reported(errors: map<Field, string>, f: ItemForm, field: Field) {
    (field in errors <==> FieldError(f, field).Some?) &&
    (field in errors ==> errors[field] == FieldError(f, field).value)
  }

  /** The description's two checks in their order: the length message overwrites the other. */
  method DescriptionErrors(errors: map<Field, string>, f: ItemForm) returns (errors': map<Field, string>)
    ensures Reported(errors', f, Description)
    ensures forall field | field != Description :: field in errors' <==> field in errors
    ensures forall field | field != Description && field in errors :: errors'[field] == errors[field]
  {
    errors' := map k | k in errors && k != Description :: errors[k];
    if Blank(f.description) {
      errors' := errors'[Description := DescriptionRequired];
    }
    if |f.description| > 250 {
      errors' := errors'[Description := DescriptionLong];
    }
  }

  /** One `if (...) newErrors.field = message` of `validateForm`, for a field not yet reported. */
  method Note(errors: map<Field, string>, f: ItemForm, field: Field) returns (errors': map<Field, string>)
    requires field !in errors
    ensures Reported(errors', f, field)
    ensures forall g | g != field :: g in errors' <==> g in errors
    ensures forall g | g != field && g in errors :: errors'[g] == errors[g]
  {
    errors' := errors;
    if FieldError(f, field).Some? {
      errors' := errors'[field := FieldError(f, field).value];
    }
  }

  /** The `newErrors` object of `validateForm`. */
  method FormErrors(f: ItemForm) returns (errors: map<Field, string>)
    ensures forall field :: Reported(errors, f, field)
    ensures errors == map[] <==> FormValid(f)
  {
    var e0 := Note(map[], f, ItemName);
    var e1 := DescriptionErrors(e0, f);
    var e2 := Note(e1, f, Price);
    var e3 := Note(e2, f, Category);
    var e4 := Note(e3, f, Subcategory);
    errors := Note(e4, f, Image);
    assert Reported(errors, f, ItemName);
    assert Reported(errors, f, Description);
    assert Reported(errors, f, Price);
    assert Reported(errors, f, Category);
    assert Reported(errors, f, Subcategory);
    forall field ensures Reported(errors, f, field) {
      match field
      case ItemName =>
      case Description =>
      case Price =>
      case Category =>
      case Subcategory =>
      case Image =>
    }
    if errors != map[] {
      var field :| field in errors;
    }
  }

  /** The multipart body of a valid form: the five text fields, then the image. */
  function Body(f: ItemForm): seq<(string, string)>
    requires f.image.Some?
  {
    [("item_name", f.itemName), ("description", f.description), ("price", f.price),
     ("category", f.category), ("subcategory", f.subcategory), ("image", f.image.value)]
  }

  /** What `POST /api/items` answered, or that the request never got an answer. */
  datatype Answer = Listed(message: string) | Refused(message: string) | Unreachable(reason: string)

  datatype ToastKind = SuccessToast | ErrorToast

  datatype Toast = Toast(message: string, kind: ToastKind)

  const ListedFallback := "Item listed successfully!"
  const RefusedFallback := "Failed to list item"
  const ErrorFallback := "Error listing item. Please try again."
  const NoTokenMessage := "Authentication token not found"

  function OrElse(message: string, fallback: string): string {
    if message != "" then message else fallback
  }

  class Page {
    var form: ItemForm
    var imagePreview: Option<string>
    var errors: map<Field, string>
    var loading: bool
    var toast: Option<Toast>

    constructor ()
      ensures form == EmptyForm && imagePreview == None && errors == map[] && !loading && toast == None
    {
      form := EmptyForm;
      imagePreview := None;
      errors := map[];
      loading := false;
      toast := None;
    }

    /**
     * `handleChange` for a text or select input. A non-empty category also clears
     * the subcategory and names the category whose subcategories are fetched. A
     * truthy error under the input is cleared (set to `undefined`, which every read
     * of `errors` treats as absent).
     */
    method HandleChange(field: Field, value: string) returns (fetchFor: Option<string>)
      requires field != Image
      modifies this`form, this`errors
      ensures field == ItemName ==> form == old(form).(itemName := value)
      ensures field == Description ==> form == old(form).(description := value)
      ensures field == Price ==> form == old(form).(price := value)
      ensures field == Category && value != "" ==> form == old(form).(category := value, subcategory := "")
      ensures field == Category && value == "" ==> form == old(form).(category := value)
      ensures field == Subcategory ==> form == old(form).(subcategory := value)
      ensures fetchFor == (if field == Category && value != "" then Some(value) else None)
      ensures field in old(errors) && old(errors)[field] != "" ==> errors == old(errors) - {field}
      ensures !(field in old(errors) && old(errors)[field] != "") ==> errors == old(errors)
    {
      fetchFor := None;
      match field {
        case ItemName => form := form.(itemName := value);
        case Description => form := form.(description := value);
        case Price => form := form.(price := value);
        case Category =>
          form := form.(category := value);
          if value != "" {
            fetchFor := Some(value);
            form := form.(subcategory := "");
          }
        case Subcategory => form := form.(subcategory := value);
      }
      if field in errors && errors[field] != "" {
        errors := errors - {field};
      }
    }

    /**
     * `handleChange` for the image input: the first chosen file (none if the list was
     * empty). With no file, reading it as a data URL throws before the image's error
     * is cleared, so only the emptied image remains of the call.
     */
    method ImageChosen(file: Option<string>)
      modifies this`form, this`errors
      ensures form == old(form).(image := file)
      ensures file.Some? && Image in old(errors) && old(errors)[Image] != "" ==> errors == old(errors) - {Image}
      ensures !(file.Some? && Image in old(errors) && old(errors)[Image] != "") ==> errors == old(errors)
    {
      form := form.(image := file);
      if file.None? {
        return;
      }
      if Image in errors && errors[Image] != "" {
        errors := errors - {Image};
      }
    }

    /** The file reader finished: its data URL becomes the preview. */
    method PreviewLoaded(dataUrl: string)
      modifies this`imagePreview
      ensures imagePreview == Some(dataUrl)
    {
      imagePreview := Some(dataUrl);
    }

    /** `removeImage`: no image and no preview; the other inputs are kept. */
    method RemoveImage()
      modifies this`form, this`imagePreview
      ensures form == old(form).(image := None) && imagePreview == None
    {
      form := form.(image := None);
      imagePreview := None;
    }

    /**
     * The first half of `handleSubmit`: an invalid form sends nothing; a valid one
     * sends its body when a token is stored, and otherwise shows an error and
     * leaves the loading state (the `finally` of the handler).
     */
    method HandleSubmit(token: Option<string>) returns (body: Option<seq<(string, string)>>)
      modifies this`errors, this`loading, this`toast
      ensures forall field :: Reported(errors, form, field)
      ensures body.Some? <==> FormValid(form) && token.Some? && token.value != ""
      ensures body.Some? ==> form.image.Some? && body.value == Body(form)
      ensures FormValid(form) ==> loading == body.Some?
      ensures !FormValid(form) ==> loading == old(loading)
      ensures FormValid(form) && !(token.Some? && token.value != "") ==> toast == Some(Toast(NoTokenMessage, ErrorToast))
      ensures !(FormValid(form) && !(token.Some? && token.value != "")) ==> toast == old(toast)
    {
      var newErrors := FormErrors(form);
      errors := newErrors;
      if |newErrors| != 0 {
        return None;
      }
      assert FieldError(form, Image) == None;
      if token.None? || token.value == "" {
        toast := Some(Toast(NoTokenMessage, ErrorToast));
        loading := false;
        return None;
      }
      loading := true;
      body := Some(Body(form));
    }

    /** The second half of `handleSubmit`: a listing resets the whole form, anything else only shows why. */
    method ReceiveAnswer(a: Answer)
      modifies this`form, this`imagePreview, this`errors, this`loading, this`toast
      ensures !loading
      ensures a.Listed? ==>
        toast == Some(Toast(OrElse(a.message, ListedFallback), SuccessToast)) &&
        form == EmptyForm && imagePreview == None && errors == map[]
      ensures a.Refused? ==>
        toast == Some(Toast(OrElse(a.message, RefusedFallback), ErrorToast)) &&
        form == old(form) && imagePreview == old(imagePreview) && errors == old(errors)
      ensures a.Unreachable? ==>
        toast == Some(Toast(OrElse(a.reason, ErrorFallback), ErrorToast)) &&
        form == old(form) && imagePreview == old(imagePreview) && errors == old(errors)
    {
      match a {
        case Listed(message) =>
          toast := Some(Toast(OrElse(message, ListedFallback), SuccessToast));
          form := EmptyForm;
          imagePreview := None;
          errors := map[];
        case Refused(message) =>
          toast := Some(Toast(OrElse(message, RefusedFallback), ErrorToast));
        case Unreachable(reason) =>
          toast := Some(Toast(OrElse(reason, ErrorFallback), ErrorToast));
      }
      loading := false;
    }
  }

  /** After a listing the form is refused again until every required input is filled anew. */
  lemma ResetFormInvalid()
    ensures !FormValid(EmptyForm)
    ensures FieldError(EmptyForm, ItemName) == Some(NameError)
    ensures FieldError(EmptyForm, Description) == Some(DescriptionRequired)
    ensures FieldError(EmptyForm, Price) == Some(PriceError)
    ensures FieldError(EmptyForm, Image) == Some(ImageRequired)
  {
    assert FieldError(EmptyForm, Image).Some?;
  }
}
