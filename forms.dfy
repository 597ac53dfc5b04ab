/** The two forms of the shop: the quantity form of a product page and the
    order form of checkout. A form's cleaning either yields a typed value or
    reports errors. */
module Forms {
  import opened Wrappers
  import opened Models

  const MIN_QUANTITY: int := 1
  const MAX_QUANTITY: int := 999
  const INITIAL_QUANTITY: int := 1

  /** A submitted integer field: left blank, not an integer, or an integer. */
  datatype RawInt = Blank | Garbled | Integer(n: int)

  datatype QuantityError = QuantityRequired | QuantityInvalid | QuantityTooSmall | QuantityTooLarge

  /** AddToCartForm's quantity field: an integer from 1 to 999. */
  function CleanQuantity(raw: RawInt): (r: Result<int, QuantityError>)
    ensures r.Ok? <==> raw.Integer? && MIN_QUANTITY <= raw.n <= MAX_QUANTITY
    ensures r.Ok? ==> r.value == raw.n
    ensures raw == Blank ==> r == Err(QuantityRequired)
    ensures raw.Integer? && raw.n < MIN_QUANTITY ==> r == Err(QuantityTooSmall)
    ensures raw.Integer? && raw.n > MAX_QUANTITY ==> r == Err(QuantityTooLarge)
  {
    match raw
    case Blank => Err(QuantityRequired)
    case Garbled => Err(QuantityInvalid)
    case Integer(n) =>
      if n < MIN_QUANTITY then Err(QuantityTooSmall)
      else if n > MAX_QUANTITY then Err(QuantityTooLarge)
      else Ok(n)
  }

  /** The quantity a product page offers before anything is submitted is one the form accepts. */
  lemma InitialQuantityIsAccepted()
    ensures CleanQuantity(Integer(INITIAL_QUANTITY)) == Ok(1)
  {
  }

  /** The submitted order form; a missing field arrives as the empty string. */
  datatype OrderFormData = OrderFormData(firstName: string, lastName: string, email: string,
                                         phone: string, comment: string)

  /** The fields of OrderForm: price and status are not among them. */
  datatype Field = FirstName | LastName | Email | Phone | Comment

  const ORDER_FORM_FIELDS: set<Field> := {FirstName, LastName, Email, Phone, Comment}

  datatype FieldError = Required | TooLong | NotAnEmail | NullCharacter

  /** What the Order model declares about a form field. */
  datatype FieldRule = FieldRule(required: bool, maxLength: Option<nat>, isEmailField: bool)

  function Rule(f: Field): FieldRule {
    match f
    case FirstName => FieldRule(true, Some(254), false)
    case LastName => FieldRule(true, Some(254), false)
    case Email => FieldRule(true, Some(254), true)
    case Phone => FieldRule(true, Some(12), false)
    case Comment => FieldRule(false, None, false)
  }

  function Value(data: OrderFormData, f: Field): string {
    match f
    case FirstName => data.firstName
    case LastName => data.lastName
    case Email => data.email
    case Phone => data.phone
    case Comment => data.comment
  }

  /** The errors one field reports: an empty value is only checked for being
      required; a non-empty one runs every validator of the field, and every
      text field of a form refuses the null character. */
  function FieldErrors(rule: FieldRule, value: string, isEmail: string -> bool): set<FieldError> {
    if value == "" then
      (if rule.required then {Required} else {})
    else
      (if rule.maxLength.Some? && |value| > rule.maxLength.value then {TooLong} else {})
      + (if rule.isEmailField && !isEmail(value) then {NotAnEmail} else {})
      + (if '\0' in value then {NullCharacter} else {})
  }

  /** A field reports no error exactly when it is filled in or optional and,
      if filled in, passes every validator. */
  lemma FieldErrorsEmpty(rule: FieldRule, value: string, isEmail: string -> bool)
    ensures FieldErrors(rule, value, isEmail) == {} <==>
      if value == "" then !rule.required
      else && (rule.maxLength.Some? ==> |value| <= rule.maxLength.value)
           && (rule.isEmailField ==> isEmail(value))
           && '\0' !in value
  {
    if value != "" {
      var errors := FieldErrors(rule, value, isEmail);
      if rule.maxLength.Some? && |value| > rule.maxLength.value { assert TooLong in errors; }
      if rule.isEmailField && !isEmail(value) { assert NotAnEmail in errors; }
      if '\0' in value { assert NullCharacter in errors; }
    }
  }

  /** The fields that report errors, each with the errors it reports. */
  function OrderFormErrors(data: OrderFormData, isEmail: string -> bool): (errors: map<Field, set<FieldError>>)
    ensures forall f :: f in errors <==> f in ORDER_FORM_FIELDS && FieldErrors(Rule(f), Value(data, f), isEmail) != {}
    ensures forall f :: f in errors ==> errors[f] == FieldErrors(Rule(f), Value(data, f), isEmail)
  {
    map f | f in ORDER_FORM_FIELDS && FieldErrors(Rule(f), Value(data, f), isEmail) != {}
      :: FieldErrors(Rule(f), Value(data, f), isEmail)
  }

  /** OrderForm's validation. isEmail stands for the e-mail validator of the
      web framework. A valid form yields the buyer's fields only; an invalid
      one reports, field by field, every error found. */
  function ValidateOrderForm(data: OrderFormData, isEmail: string -> bool)
    : (r: Result<Contact, map<Field, set<FieldError>>>)
    ensures r.Ok? <==>
      && data.firstName != "" && |data.firstName| <= 254 && '\0' !in data.firstName
      && data.lastName != "" && |data.lastName| <= 254 && '\0' !in data.lastName
      && data.email != "" && |data.email| <= 254 && isEmail(data.email) && '\0' !in data.email
      && data.phone != "" && |data.phone| <= 12 && '\0' !in data.phone
      && '\0' !in data.comment
    ensures r.Ok? ==> r.value == Contact(data.firstName, data.lastName, data.email, data.phone, data.comment)
    ensures r.Err? ==> r.error != map[]
    ensures r.Err? ==> (Comment in r.error <==> '\0' in data.comment)
    ensures r.Err? && Comment in r.error ==> r.error[Comment] == {NullCharacter}
    ensures r.Err? ==> forall f :: f in r.error ==> r.error[f] != {}
    ensures r.Err? && data.firstName == "" ==> FirstName in r.error && r.error[FirstName] == {Required}
    ensures r.Err? && data.lastName == "" ==> LastName in r.error && r.error[LastName] == {Required}
    ensures r.Err? && data.email == "" ==> Email in r.error && r.error[Email] == {Required}
    ensures r.Err? && data.phone == "" ==> Phone in r.error && r.error[Phone] == {Required}
  {
    var errors := OrderFormErrors(data, isEmail);
    assert FirstName in ORDER_FORM_FIELDS && LastName in ORDER_FORM_FIELDS;
    assert Email in ORDER_FORM_FIELDS && Phone in ORDER_FORM_FIELDS && Comment in ORDER_FORM_FIELDS;
    FieldErrorsEmpty(Rule(FirstName), data.firstName, isEmail);
    FieldErrorsEmpty(Rule(LastName), data.lastName, isEmail);
    FieldErrorsEmpty(Rule(Email), data.email, isEmail);
    FieldErrorsEmpty(Rule(Phone), data.phone, isEmail);
    FieldErrorsEmpty(Rule(Comment), data.comment, isEmail);
    if errors == map[] then
      assert FirstName !in errors && LastName !in errors && Email !in errors && Phone !in errors;
      assert Comment !in errors;
      assert FieldErrors(Rule(FirstName), data.firstName, isEmail) == {};
      assert FieldErrors(Rule(LastName), data.lastName, isEmail) == {};
      assert FieldErrors(Rule(Email), data.email, isEmail) == {};
      assert FieldErrors(Rule(Phone), data.phone, isEmail) == {};
      assert FieldErrors(Rule(Comment), data.comment, isEmail) == {};
      Ok(Contact(data.firstName, data.lastName, data.email, data.phone, data.comment))
    else
      Err(errors)
  }

  /** The comment is optional: a valid form stays valid with the comment
      left blank, and the blank comment is kept as the empty string. */
  lemma EmptyCommentIsAccepted(data: OrderFormData, isEmail: string -> bool)
    requires ValidateOrderForm(data, isEmail).Ok?
    ensures ValidateOrderForm(data.(comment := ""), isEmail) == Ok(ValidateOrderForm(data, isEmail).value.(comment := ""))
  {
  }

  /** A null character in any field, the optional comment included, makes
      the form invalid and is reported on that field. */
  lemma NullCharacterIsRejected(data: OrderFormData, isEmail: string -> bool, f: Field)
    requires '\0' in Value(data, f)
    ensures var r := ValidateOrderForm(data, isEmail);
            r.Err? && f in r.error && NullCharacter in r.error[f]
  {
    assert f in ORDER_FORM_FIELDS;
    assert Value(data, f) != "";
    assert NullCharacter in FieldErrors(Rule(f), Value(data, f), isEmail);
  }
}
