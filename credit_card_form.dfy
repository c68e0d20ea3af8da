/** The payment step's rule table (src/components/CreditCardForm.tsx) and what
    it makes of a record. */
module CreditCardForm {
  import opened FormTypes
  import opened CardPatterns
  import opened Validation

  const Schema: Schema := [
    Field("cardNumber", [Required("Card number is required"), Regex(CardNumberPattern, "Card number must be 16 digits")]),
    Field("cardHolder", [Required("Card holder name is required")]),
    Field("expiryDate", [Required("Expiry date is required"), Regex(ExpiryPattern, "Invalid expiry date (MM/YY)")]),
    Field("cvv", [Required("CVV is required"), Regex(CvvPattern, "CVV must be 3 or 4 digits")])
  ]

  /** The schema has one truthy path per field of the record, and no other. */
  lemma SchemaCoversRecord()
    ensures WellFormed(Schema) && DistinctNames(Schema) && Names(Schema) == CreditCardFields
  {
    assert Schema[0].name == "cardNumber" && Schema[1].name == "cardHolder";
    assert Schema[2].name == "expiryDate" && Schema[3].name == "cvv";
  }

  /** The failures of each field of a record. */
  lemma FieldFailures(c: CreditCard, isEmail: string -> bool)
    ensures FieldPairs(Schema[0], c.Values(), isEmail)
      == (if c.cardNumber == "" then {("cardNumber", "Card number is required")} else {})
       + (if !IsCardNumber(c.cardNumber) then {("cardNumber", "Card number must be 16 digits")} else {})
    ensures FieldPairs(Schema[1], c.Values(), isEmail)
      == (if c.cardHolder == "" then {("cardHolder", "Card holder name is required")} else {})
    ensures FieldPairs(Schema[2], c.Values(), isEmail)
      == (if c.expiryDate == "" then {("expiryDate", "Expiry date is required")} else {})
       + (if !IsExpiry(c.expiryDate) then {("expiryDate", "Invalid expiry date (MM/YY)")} else {})
    ensures FieldPairs(Schema[3], c.Values(), isEmail)
      == (if c.cvv == "" then {("cvv", "CVV is required")} else {})
       + (if !IsCvv(c.cvv) then {("cvv", "CVV must be 3 or 4 digits")} else {})
  {
    var v := c.Values();
    assert Lookup(v, "cardNumber") == c.cardNumber && Lookup(v, "cardHolder") == c.cardHolder;
    assert Lookup(v, "expiryDate") == c.expiryDate && Lookup(v, "cvv") == c.cvv;
    TwoRuleField("cardNumber", Required("Card number is required"),
      Regex(CardNumberPattern, "Card number must be 16 digits"), c.cardNumber, isEmail);
    OneRuleField("cardHolder", Required("Card holder name is required"), c.cardHolder, isEmail);
    TwoRuleField("expiryDate", Required("Expiry date is required"),
      Regex(ExpiryPattern, "Invalid expiry date (MM/YY)"), c.expiryDate, isEmail);
    TwoRuleField("cvv", Required("CVV is required"), Regex(CvvPattern, "CVV must be 3 or 4 digits"), c.cvv, isEmail);
  }

  /** Every failure the rules report for a record: each field fails its
      required rule exactly when empty, and cardNumber, expiryDate and cvv
      fail their pattern exactly when the pattern does not match (which an
      empty value never does). */
  lemma RecordFailures(c: CreditCard, isEmail: string -> bool)
    ensures Failures(Schema, c.Values(), isEmail) ==
      (if c.cardNumber == "" then {("cardNumber", "Card number is required")} else {})
      + (if !IsCardNumber(c.cardNumber) then {("cardNumber", "Card number must be 16 digits")} else {})
      + (if c.cardHolder == "" then {("cardHolder", "Card holder name is required")} else {})
      + (if c.expiryDate == "" then {("expiryDate", "Expiry date is required")} else {})
      + (if !IsExpiry(c.expiryDate) then {("expiryDate", "Invalid expiry date (MM/YY)")} else {})
      + (if c.cvv == "" then {("cvv", "CVV is required")} else {})
      + (if !IsCvv(c.cvv) then {("cvv", "CVV must be 3 or 4 digits")} else {})
  {
    FailuresOfFour(Schema, c.Values(), isEmail);
    FieldFailures(c, isEmail);
  }

  /** The messages the card number fails with: the required message when
      empty, the pattern message when not sixteen digits. */
  lemma CardNumberMessages(c: CreditCard, isEmail: string -> bool)
    ensures MessagesAt(Schema, c.Values(), isEmail, "cardNumber")
      == (if c.cardNumber == "" then {"Card number is required"} else {})
       + (if !IsCardNumber(c.cardNumber) then {"Card number must be 16 digits"} else {})
  {
    SchemaCoversRecord();
    assert Lookup(c.Values(), "cardNumber") == c.cardNumber;
    MessagesAtField(Schema, c.Values(), isEmail, 0);
    RuleMessages(Schema[0].rules[0], Schema[0].rules[1], c.cardNumber, isEmail);
  }

  /** The messages the card holder fails with: the required message when
      empty. */
  lemma CardHolderMessages(c: CreditCard, isEmail: string -> bool)
    ensures MessagesAt(Schema, c.Values(), isEmail, "cardHolder")
      == (if c.cardHolder == "" then {"Card holder name is required"} else {})
  {
    SchemaCoversRecord();
    assert Lookup(c.Values(), "cardHolder") == c.cardHolder;
    MessagesAtField(Schema, c.Values(), isEmail, 1);
    RuleMessages(Schema[1].rules[0], Schema[1].rules[0], c.cardHolder, isEmail);
  }

  /** The messages the expiry date fails with: the required message when
      empty, the pattern message when not "MM/YY". */
  lemma ExpiryDateMessages(c: CreditCard, isEmail: string -> bool)
    ensures MessagesAt(Schema, c.Values(), isEmail, "expiryDate")
      == (if c.expiryDate == "" then {"Expiry date is required"} else {})
       + (if !IsExpiry(c.expiryDate) then {"Invalid expiry date (MM/YY)"} else {})
  {
    SchemaCoversRecord();
    assert Lookup(c.Values(), "expiryDate") == c.expiryDate;
    MessagesAtField(Schema, c.Values(), isEmail, 2);
    RuleMessages(Schema[2].rules[0], Schema[2].rules[1], c.expiryDate, isEmail);
  }

  /** The messages the CVV fails with: the required message when empty, the
      pattern message when not three or four digits. */
  lemma CvvMessages(c: CreditCard, isEmail: string -> bool)
    ensures MessagesAt(Schema, c.Values(), isEmail, "cvv")
      == (if c.cvv == "" then {"CVV is required"} else {})
       + (if !IsCvv(c.cvv) then {"CVV must be 3 or 4 digits"} else {})
  {
    SchemaCoversRecord();
    assert Lookup(c.Values(), "cvv") == c.cvv;
    MessagesAtField(Schema, c.Values(), isEmail, 3);
    RuleMessages(Schema[3].rules[0], Schema[3].rules[1], c.cvv, isEmail);
  }

  /** After a failed submit, the card number has an entry exactly when it is
      not sixteen digits, holding the required message only when it is
      empty. */
  lemma CardNumberEntry(c: CreditCard, isEmail: string -> bool, inner: seq<Issue>)
    requires Reports(inner, Failures(Schema, c.Values(), isEmail))
    ensures "cardNumber" in ErrorMapOf(inner) <==> !IsCardNumber(c.cardNumber)
    ensures "cardNumber" in ErrorMapOf(inner) ==>
      (ErrorMapOf(inner)["cardNumber"] == "Card number is required" && c.cardNumber == "")
      || ErrorMapOf(inner)["cardNumber"] == "Card number must be 16 digits"
  {
    SchemaCoversRecord();
    CardNumberMessages(c, isEmail);
    EntryOfTwo(Schema, c.Values(), isEmail, inner, "cardNumber", "Card number is required", c.cardNumber == "",
      "Card number must be 16 digits", !IsCardNumber(c.cardNumber));
  }

  /** After a failed submit, the card holder has an entry exactly when it is
      empty. */
  lemma CardHolderEntry(c: CreditCard, isEmail: string -> bool, inner: seq<Issue>)
    requires Reports(inner, Failures(Schema, c.Values(), isEmail))
    ensures "cardHolder" in ErrorMapOf(inner) <==> c.cardHolder == ""
    ensures "cardHolder" in ErrorMapOf(inner) ==> ErrorMapOf(inner)["cardHolder"] == "Card holder name is required"
  {
    SchemaCoversRecord();
    CardHolderMessages(c, isEmail);
    EntryOfOne(Schema, c.Values(), isEmail, inner, "cardHolder", "Card holder name is required", c.cardHolder == "");
  }

  /** After a failed submit, the expiry date has an entry exactly when it is
      not "MM/YY" with a month from 01 to 12. */
  lemma ExpiryDateEntry(c: CreditCard, isEmail: string -> bool, inner: seq<Issue>)
    requires Reports(inner, Failures(Schema, c.Values(), isEmail))
    ensures "expiryDate" in ErrorMapOf(inner) <==> !IsExpiry(c.expiryDate)
    ensures "expiryDate" in ErrorMapOf(inner) ==>
      (ErrorMapOf(inner)["expiryDate"] == "Expiry date is required" && c.expiryDate == "")
      || ErrorMapOf(inner)["expiryDate"] == "Invalid expiry date (MM/YY)"
  {
    SchemaCoversRecord();
    ExpiryDateMessages(c, isEmail);
    EntryOfTwo(Schema, c.Values(), isEmail, inner, "expiryDate", "Expiry date is required", c.expiryDate == "",
      "Invalid expiry date (MM/YY)", !IsExpiry(c.expiryDate));
  }

  /** After a failed submit, the CVV has an entry exactly when it is not three
      or four digits. */
  lemma CvvEntry(c: CreditCard, isEmail: string -> bool, inner: seq<Issue>)
    requires Reports(inner, Failures(Schema, c.Values(), isEmail))
    ensures "cvv" in ErrorMapOf(inner) <==> !IsCvv(c.cvv)
    ensures "cvv" in ErrorMapOf(inner) ==>
      (ErrorMapOf(inner)["cvv"] == "CVV is required" && c.cvv == "")
      || ErrorMapOf(inner)["cvv"] == "CVV must be 3 or 4 digits"
  {
    SchemaCoversRecord();
    CvvMessages(c, isEmail);
    EntryOfTwo(Schema, c.Values(), isEmail, inner, "cvv", "CVV is required", c.cvv == "",
      "CVV must be 3 or 4 digits", !IsCvv(c.cvv));
  }

  /** After a failed submit, the error map's keys are the failing fields, all
      of them fields of the card. */
  lemma ErrorKeys(c: CreditCard, isEmail: string -> bool, inner: seq<Issue>)
    requires Reports(inner, Failures(Schema, c.Values(), isEmail))
    ensures ErrorMapOf(inner).Keys == FailingFields(Schema, c.Values(), isEmail)
    ensures ErrorMapOf(inner).Keys <= CreditCardFields
  {
    SchemaCoversRecord();
    ErrorKeysAreNames(Schema, c.Values(), isEmail, inner);
  }

  /** Every rule passes on a 16-digit number, a holder, a valid expiry and a
      CVV of three digits, but month 13 does not exist: the submit cannot
      pass. */
  lemma MonthThirteenFails(isEmail: string -> bool, outcome: Outcome)
    requires Conforms(Schema, CreditCard("1234567890123456", "A B", "13/29", "123").Values(), isEmail, outcome)
    ensures !outcome.Passed?
  {
    var c := CreditCard("1234567890123456", "A B", "13/29", "123");
    PatternExamples();
    ExpiryDateMessages(c, isEmail);
    assert "Invalid expiry date (MM/YY)" in MessagesAt(Schema, c.Values(), isEmail, "expiryDate");
  }

  /** When only the expiry date is wrong, and it is not empty, the form shows
      exactly one error: the expiry pattern's message on expiryDate. */
  lemma OnlyExpiryWrong(c: CreditCard, isEmail: string -> bool, inner: seq<Issue>)
    requires IsCardNumber(c.cardNumber) && c.cardHolder != "" && IsCvv(c.cvv)
    requires c.expiryDate != "" && !IsExpiry(c.expiryDate)
    requires Reports(inner, Failures(Schema, c.Values(), isEmail))
    ensures ErrorMapOf(inner) == map["expiryDate" := "Invalid expiry date (MM/YY)"]
  {
    var errors := ErrorMapOf(inner);
    assert errors.Keys <= CreditCardFields by { ErrorKeys(c, isEmail, inner); }
    assert "cardNumber" !in errors by { CardNumberEntry(c, isEmail, inner); }
    assert "cardHolder" !in errors by { CardHolderEntry(c, isEmail, inner); }
    assert "cvv" !in errors by { CvvEntry(c, isEmail, inner); }
    assert "expiryDate" in errors && errors["expiryDate"] == "Invalid expiry date (MM/YY)" by {
      ExpiryDateEntry(c, isEmail, inner);
    }
    SoleEntry(errors, "Invalid expiry date (MM/YY)");
  }

  lemma SoleEntry(errors: map<string, string>, m: string)
    requires errors.Keys <= CreditCardFields
    requires "cardNumber" !in errors && "cardHolder" !in errors && "cvv" !in errors
    requires "expiryDate" in errors && errors["expiryDate"] == m
    ensures errors == map["expiryDate" := m]
  {
    assert errors.Keys == {"expiryDate"};
  }

  /** Month 13 is the only fault of this record. */
  lemma MonthThirteenErrors(isEmail: string -> bool, inner: seq<Issue>)
    requires Reports(inner, Failures(Schema, CreditCard("1234567890123456", "A B", "13/29", "123").Values(), isEmail))
    ensures ErrorMapOf(inner) == map["expiryDate" := "Invalid expiry date (MM/YY)"]
  {
    PatternExamples();
    OnlyExpiryWrong(CreditCard("1234567890123456", "A B", "13/29", "123"), isEmail, inner);
  }
}
