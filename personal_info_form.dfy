/** The identity step's rule table (src/components/PersonalInfoForm.tsx) and
    what it makes of a record. */
module PersonalInfoForm {
  import opened FormTypes
  import opened Validation

  const Schema: Schema := [
    Field("firstName", [Required("First name is required")]),
    Field("lastName", [Required("Last name is required")]),
    Field("email", [Email("Invalid email"), Required("Email is required")]),
    Field("phone", [Required("Phone number is required")])
  ]

  /** The schema has one truthy path per field of the record, all distinct,
      and no other. */
  lemma SchemaCoversRecord()
    ensures WellFormed(Schema) && DistinctNames(Schema) && Names(Schema) == PersonalInfoFields
  {
    assert Schema[0].name == "firstName" && Schema[1].name == "lastName";
    assert Schema[2].name == "email" && Schema[3].name == "phone";
  }

  /** The failures of each field of a record. */
  lemma FieldFailures(p: PersonalInfo, isEmail: string -> bool)
    ensures FieldPairs(Schema[0], p.Values(), isEmail)
      == (if p.firstName == "" then {("firstName", "First name is required")} else {})
    ensures FieldPairs(Schema[1], p.Values(), isEmail)
      == (if p.lastName == "" then {("lastName", "Last name is required")} else {})
    ensures FieldPairs(Schema[2], p.Values(), isEmail)
      == (if p.email != "" && !isEmail(p.email) then {("email", "Invalid email")} else {})
       + (if p.email == "" then {("email", "Email is required")} else {})
    ensures FieldPairs(Schema[3], p.Values(), isEmail)
      == (if p.phone == "" then {("phone", "Phone number is required")} else {})
  {
    var v := p.Values();
    assert Lookup(v, "firstName") == p.firstName && Lookup(v, "lastName") == p.lastName;
    assert Lookup(v, "email") == p.email && Lookup(v, "phone") == p.phone;
    OneRuleField("firstName", Required("First name is required"), p.firstName, isEmail);
    OneRuleField("lastName", Required("Last name is required"), p.lastName, isEmail);
    TwoRuleField("email", Email("Invalid email"), Required("Email is required"), p.email, isEmail);
    OneRuleField("phone", Required("Phone number is required"), p.phone, isEmail);
  }

  /** Every failure the rules report for a record: each of firstName, lastName
      and phone fails with its own message exactly when empty; email fails
      with "Email is required" when empty and with "Invalid email" when it is
      non-empty and not email-shaped. */
  lemma RecordFailures(p: PersonalInfo, isEmail: string -> bool)
    ensures Failures(Schema, p.Values(), isEmail) ==
      (if p.firstName == "" then {("firstName", "First name is required")} else {})
      + (if p.lastName == "" then {("lastName", "Last name is required")} else {})
      + (if p.email != "" && !isEmail(p.email) then {("email", "Invalid email")} else {})
      + (if p.email == "" then {("email", "Email is required")} else {})
      + (if p.phone == "" then {("phone", "Phone number is required")} else {})
  {
    FailuresOfFour(Schema, p.Values(), isEmail);
    FieldFailures(p, isEmail);
  }

  /** The messages each field of a record fails with. An email fails with at
      most one message: the required one when empty, the shape one otherwise. */
  lemma FieldMessages(p: PersonalInfo, isEmail: string -> bool)
    ensures MessagesAt(Schema, p.Values(), isEmail, "firstName")
      == (if p.firstName == "" then {"First name is required"} else {})
    ensures MessagesAt(Schema, p.Values(), isEmail, "lastName")
      == (if p.lastName == "" then {"Last name is required"} else {})
    ensures MessagesAt(Schema, p.Values(), isEmail, "email")
      == (if p.email != "" && !isEmail(p.email) then {"Invalid email"} else {})
       + (if p.email == "" then {"Email is required"} else {})
    ensures MessagesAt(Schema, p.Values(), isEmail, "phone")
      == (if p.phone == "" then {"Phone number is required"} else {})
  {
    var v := p.Values();
    SchemaCoversRecord();
    assert Lookup(v, "firstName") == p.firstName && Lookup(v, "lastName") == p.lastName;
    assert Lookup(v, "email") == p.email && Lookup(v, "phone") == p.phone;
    MessagesAtField(Schema, v, isEmail, 0);
    MessagesAtField(Schema, v, isEmail, 1);
    MessagesAtField(Schema, v, isEmail, 2);
    MessagesAtField(Schema, v, isEmail, 3);
    RuleMessages(Schema[0].rules[0], Schema[0].rules[0], p.firstName, isEmail);
    RuleMessages(Schema[1].rules[0], Schema[1].rules[0], p.lastName, isEmail);
    RuleMessages(Schema[2].rules[0], Schema[2].rules[1], p.email, isEmail);
    RuleMessages(Schema[3].rules[0], Schema[3].rules[0], p.phone, isEmail);
  }

  /** After a failed submit, the error map's keys are the failing fields, all
      of them fields of the record. */
  lemma ErrorKeys(p: PersonalInfo, isEmail: string -> bool, inner: seq<Issue>)
    requires Reports(inner, Failures(Schema, p.Values(), isEmail))
    ensures ErrorMapOf(inner).Keys == FailingFields(Schema, p.Values(), isEmail)
    ensures ErrorMapOf(inner).Keys <= PersonalInfoFields
  {
    SchemaCoversRecord();
    ErrorKeysAreNames(Schema, p.Values(), isEmail, inner);
  }

  /** After a failed submit, the error map has an entry for a field exactly
      when that field fails, and the entry holds that field's failing message:
      "Email is required" for an empty email, "Invalid email" for a non-empty
      one that is not email-shaped. */
  lemma ErrorsAfterFailure(p: PersonalInfo, isEmail: string -> bool, inner: seq<Issue>)
    requires Reports(inner, Failures(Schema, p.Values(), isEmail))
    ensures ErrorMapOf(inner).Keys <= PersonalInfoFields
    ensures "firstName" in ErrorMapOf(inner) <==> p.firstName == ""
    ensures "lastName" in ErrorMapOf(inner) <==> p.lastName == ""
    ensures "email" in ErrorMapOf(inner) <==> p.email == "" || !isEmail(p.email)
    ensures "phone" in ErrorMapOf(inner) <==> p.phone == ""
    ensures "firstName" in ErrorMapOf(inner) ==> ErrorMapOf(inner)["firstName"] == "First name is required"
    ensures "lastName" in ErrorMapOf(inner) ==> ErrorMapOf(inner)["lastName"] == "Last name is required"
    ensures "phone" in ErrorMapOf(inner) ==> ErrorMapOf(inner)["phone"] == "Phone number is required"
    ensures p.email == "" ==> ErrorMapOf(inner)["email"] == "Email is required"
    ensures p.email != "" && !isEmail(p.email) ==> ErrorMapOf(inner)["email"] == "Invalid email"
  {
    var v := p.Values();
    SchemaCoversRecord();
    ErrorKeys(p, isEmail, inner);
    FieldMessages(p, isEmail);
    EntryOfOne(Schema, v, isEmail, inner, "firstName", "First name is required", p.firstName == "");
    EntryOfOne(Schema, v, isEmail, inner, "lastName", "Last name is required", p.lastName == "");
    EntryOfTwo(Schema, v, isEmail, inner, "email", "Invalid email", p.email != "" && !isEmail(p.email),
      "Email is required", p.email == "");
    EntryOfOne(Schema, v, isEmail, inner, "phone", "Phone number is required", p.phone == "");
  }

  /** Only firstName filled: the failure reports lastName, email and phone
      and nothing else, and the empty email shows only its required message. */
  lemma OnlyFirstNameFilled(isEmail: string -> bool, inner: seq<Issue>)
    requires Reports(inner, Failures(Schema, PersonalInfo("Ada", "", "", "").Values(), isEmail))
    ensures ErrorMapOf(inner).Keys == {"lastName", "email", "phone"}
    ensures ErrorMapOf(inner)["email"] == "Email is required"
  {
    ErrorsAfterFailure(PersonalInfo("Ada", "", "", ""), isEmail, inner);
  }

  /** A complete record with an email-shaped address raises no failure. */
  lemma CompleteRecordPasses(isEmail: string -> bool)
    requires isEmail("ada@example.com")
    ensures Failures(Schema, PersonalInfo("Ada", "Lovelace", "ada@example.com", "5551234").Values(), isEmail) == {}
  {
    RecordFailures(PersonalInfo("Ada", "Lovelace", "ada@example.com", "5551234"), isEmail);
  }
}
