/** Record and state shapes of the registration wizard (src/types/form.ts). */
module FormTypes {

  datatype Option<T> = None | Some(value: T)

  const PersonalInfoFields: set<string> := {"firstName", "lastName", "email", "phone"}
  const AddressFields: set<string> := {"street", "city", "country", "postalCode"}
  const CreditCardFields: set<string> := {"cardNumber", "cardHolder", "expiryDate", "cvv"}

  /** The identity step's record: four strings. */
  datatype PersonalInfo = PersonalInfo(firstName: string, lastName: string, email: string, phone: string)
  {
    /** The record as the object the validation library walks: field name to value. */
    function Values(): (r: map<string, string>)
      ensures r.Keys == PersonalInfoFields
    {
      map["firstName" := firstName, "lastName" := lastName, "email" := email, "phone" := phone]
    }

    /** `{ ...record, [name]: value }`, as an input's change handler builds it. */
    function With(name: string, value: string): (r: PersonalInfo)
      requires name in PersonalInfoFields
      ensures r.Values() == Values()[name := value]
    {
      if name == "firstName" then this.(firstName := value)
      else if name == "lastName" then this.(lastName := value)
      else if name == "email" then this.(email := value)
      else this.(phone := value)
    }
  }

  /** The address step's record: four strings. */
  datatype Address = Address(street: string, city: string, country: string, postalCode: string)
  {
    function Values(): (r: map<string, string>)
      ensures r.Keys == AddressFields
    {
      map["street" := street, "city" := city, "country" := country, "postalCode" := postalCode]
    }

    function With(name: string, value: string): (r: Address)
      requires name in AddressFields
      ensures r.Values() == Values()[name := value]
    {
      if name == "street" then this.(street := value)
      else if name == "city" then this.(city := value)
      else if name == "country" then this.(country := value)
      else this.(postalCode := value)
    }
  }

  /** The payment step's record: four strings. */
  datatype CreditCard = CreditCard(cardNumber: string, cardHolder: string, expiryDate: string, cvv: string)
  {
    function Values(): (r: map<string, string>)
      ensures r.Keys == CreditCardFields
    {
      map["cardNumber" := cardNumber, "cardHolder" := cardHolder, "expiryDate" := expiryDate, "cvv" := cvv]
    }

    function With(name: string, value: string): (r: CreditCard)
      requires name in CreditCardFields
      ensures r.Values() == Values()[name := value]
    {
      if name == "cardNumber" then this.(cardNumber := value)
      else if name == "cardHolder" then this.(cardHolder := value)
      else if name == "expiryDate" then this.(expiryDate := value)
      else this.(cvv := value)
    }
  }

  /** Each record is exactly its four named fields: two records with the same
      field-to-value view are the same record. */
  lemma RecordsAreTheirFields(p: PersonalInfo, q: PersonalInfo, a: Address, b: Address, c: CreditCard, d: CreditCard)
    ensures p.Values() == q.Values() ==> p == q
    ensures a.Values() == b.Values() ==> a == b
    ensures c.Values() == d.Values() ==> c == d
  {
  }

  /** `Partial<R>` of a record type whose field names are `fields`: some of those
      fields, each with a string. */
  predicate IsPartialOf(m: map<string, string>, fields: set<string>)
  {
    m.Keys <= fields
  }

  /** `FormState['errors']`: one partial record per step. */
  datatype FormErrors = FormErrors(
    personalInfo: map<string, string>,
    address: map<string, string>,
    creditCard: map<string, string>)
  {
    predicate WellTyped()
    {
      IsPartialOf(personalInfo, PersonalInfoFields)
      && IsPartialOf(address, AddressFields)
      && IsPartialOf(creditCard, CreditCardFields)
    }
  }

  const NoErrors: FormErrors := FormErrors(map[], map[], map[])

  /** The whole slice: the current step number, one record per step and one
      error map per step. */
  datatype FormState = FormState(
    currentStep: int,
    personalInfo: PersonalInfo,
    address: Address,
    creditCard: CreditCard,
    errors: FormErrors)

  /** The three steps, in order. */
  datatype Step = PersonalInfoStep | AddressStep | CreditCardStep
  {
    function Number(): (n: int)
      ensures 1 <= n <= 3
    {
      match this
      case PersonalInfoStep => 1
      case AddressStep => 2
      case CreditCardStep => 3
    }

    /** Names of the fields of this step's record. */
    function Fields(): set<string>
    {
      match this
      case PersonalInfoStep => PersonalInfoFields
      case AddressStep => AddressFields
      case CreditCardStep => CreditCardFields
    }
  }

  /** The form shown for a step number: form k is mounted exactly when the
      current step is k, and none is mounted for any other number. */
  function StepAt(n: int): (r: Option<Step>)
    ensures r.Some? <==> 1 <= n <= 3
    ensures r.Some? ==> r.value.Number() == n
    ensures forall s: Step :: s.Number() == n ==> r == Some(s)
  {
    if n == 1 then Some(PersonalInfoStep)
    else if n == 2 then Some(AddressStep)
    else if n == 3 then Some(CreditCardStep)
    else None
  }
}
