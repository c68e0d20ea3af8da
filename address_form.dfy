/** The address step's rule table (src/components/AddressForm.tsx) and what it
    makes of a record. */
module AddressForm {
  import opened FormTypes
  import opened Validation

  const Schema: Schema := [
    Field("street", [Required("Street address is required")]),
    Field("city", [Required("City is required")]),
    Field("country", [Required("Country is required")]),
    Field("postalCode", [Required("Postal code is required")])
  ]

  /** The schema has one truthy path per field of the record, all distinct,
      and no other. */
  lemma SchemaCoversRecord()
    ensures WellFormed(Schema) && DistinctNames(Schema) && Names(Schema) == AddressFields
  {
    assert Schema[0].name == "street" && Schema[1].name == "city";
    assert Schema[2].name == "country" && Schema[3].name == "postalCode";
  }

  /** The failures of each field of a record. */
  lemma FieldFailures(a: Address, isEmail: string -> bool)
    ensures FieldPairs(Schema[0], a.Values(), isEmail)
      == (if a.street == "" then {("street", "Street address is required")} else {})
    ensures FieldPairs(Schema[1], a.Values(), isEmail)
      == (if a.city == "" then {("city", "City is required")} else {})
    ensures FieldPairs(Schema[2], a.Values(), isEmail)
      == (if a.country == "" then {("country", "Country is required")} else {})
    ensures FieldPairs(Schema[3], a.Values(), isEmail)
      == (if a.postalCode == "" then {("postalCode", "Postal code is required")} else {})
  {
    var v := a.Values();
    assert Lookup(v, "street") == a.street && Lookup(v, "city") == a.city;
    assert Lookup(v, "country") == a.country && Lookup(v, "postalCode") == a.postalCode;
    OneRuleField("street", Required("Street address is required"), a.street, isEmail);
    OneRuleField("city", Required("City is required"), a.city, isEmail);
    OneRuleField("country", Required("Country is required"), a.country, isEmail);
    OneRuleField("postalCode", Required("Postal code is required"), a.postalCode, isEmail);
  }

  /** Every failure the rules report for a record: each field fails with its
      own message exactly when it is empty. */
  lemma RecordFailures(a: Address, isEmail: string -> bool)
    ensures Failures(Schema, a.Values(), isEmail) ==
      (if a.street == "" then {("street", "Street address is required")} else {})
      + (if a.city == "" then {("city", "City is required")} else {})
      + (if a.country == "" then {("country", "Country is required")} else {})
      + (if a.postalCode == "" then {("postalCode", "Postal code is required")} else {})
  {
    FailuresOfFour(Schema, a.Values(), isEmail);
    FieldFailures(a, isEmail);
  }

  /** The country is only required to be non-empty: two addresses that differ
      only in a non-empty country fail in the same way, whatever list of
      countries the form has loaded. */
  lemma CountryOnlyRequired(a: Address, country1: string, country2: string, isEmail: string -> bool)
    requires country1 != "" && country2 != ""
    ensures Failures(Schema, a.(country := country1).Values(), isEmail)
         == Failures(Schema, a.(country := country2).Values(), isEmail)
  {
    RecordFailures(a.(country := country1), isEmail);
    RecordFailures(a.(country := country2), isEmail);
  }

  /** The messages each field of an address fails with. */
  lemma FieldMessages(a: Address, isEmail: string -> bool)
    ensures MessagesAt(Schema, a.Values(), isEmail, "street")
      == (if a.street == "" then {"Street address is required"} else {})
    ensures MessagesAt(Schema, a.Values(), isEmail, "city")
      == (if a.city == "" then {"City is required"} else {})
    ensures MessagesAt(Schema, a.Values(), isEmail, "country")
      == (if a.country == "" then {"Country is required"} else {})
    ensures MessagesAt(Schema, a.Values(), isEmail, "postalCode")
      == (if a.postalCode == "" then {"Postal code is required"} else {})
  {
    var v := a.Values();
    SchemaCoversRecord();
    assert Lookup(v, "street") == a.street && Lookup(v, "city") == a.city;
    assert Lookup(v, "country") == a.country && Lookup(v, "postalCode") == a.postalCode;
    MessagesAtField(Schema, v, isEmail, 0);
    MessagesAtField(Schema, v, isEmail, 1);
    MessagesAtField(Schema, v, isEmail, 2);
    MessagesAtField(Schema, v, isEmail, 3);
    RuleMessages(Schema[0].rules[0], Schema[0].rules[0], a.street, isEmail);
    RuleMessages(Schema[1].rules[0], Schema[1].rules[0], a.city, isEmail);
    RuleMessages(Schema[2].rules[0], Schema[2].rules[0], a.country, isEmail);
    RuleMessages(Schema[3].rules[0], Schema[3].rules[0], a.postalCode, isEmail);
  }

  /** After a failed submit, the error map's keys are the failing fields, all
      of them fields of the address. */
  lemma ErrorKeys(a: Address, isEmail: string -> bool, inner: seq<Issue>)
    requires Reports(inner, Failures(Schema, a.Values(), isEmail))
    ensures ErrorMapOf(inner).Keys == FailingFields(Schema, a.Values(), isEmail)
    ensures ErrorMapOf(inner).Keys <= AddressFields
  {
    SchemaCoversRecord();
    ErrorKeysAreNames(Schema, a.Values(), isEmail, inner);
  }

  /** After a failed submit, the error map has an entry, with that field's
      message, exactly for each empty field. */
  lemma ErrorsAfterFailure(a: Address, isEmail: string -> bool, inner: seq<Issue>)
    requires Reports(inner, Failures(Schema, a.Values(), isEmail))
    ensures ErrorMapOf(inner).Keys <= AddressFields
    ensures "street" in ErrorMapOf(inner) <==> a.street == ""
    ensures "city" in ErrorMapOf(inner) <==> a.city == ""
    ensures "country" in ErrorMapOf(inner) <==> a.country == ""
    ensures "postalCode" in ErrorMapOf(inner) <==> a.postalCode == ""
    ensures "street" in ErrorMapOf(inner) ==> ErrorMapOf(inner)["street"] == "Street address is required"
    ensures "city" in ErrorMapOf(inner) ==> ErrorMapOf(inner)["city"] == "City is required"
    ensures "country" in ErrorMapOf(inner) ==> ErrorMapOf(inner)["country"] == "Country is required"
    ensures "postalCode" in ErrorMapOf(inner) ==> ErrorMapOf(inner)["postalCode"] == "Postal code is required"
  {
    var v := a.Values();
    SchemaCoversRecord();
    ErrorKeys(a, isEmail, inner);
    FieldMessages(a, isEmail);
    EntryOfOne(Schema, v, isEmail, inner, "street", "Street address is required", a.street == "");
    EntryOfOne(Schema, v, isEmail, inner, "city", "City is required", a.city == "");
    EntryOfOne(Schema, v, isEmail, inner, "country", "Country is required", a.country == "");
    EntryOfOne(Schema, v, isEmail, inner, "postalCode", "Postal code is required", a.postalCode == "");
  }
}
