/** The three forms wired to the store (the three form components and src/App.tsx).
    Only the form of the current step is mounted, and each form keeps its
    error map in local component state, so the session holds one local error
    map: the mounted form's. A step change mounts a new form, whose error map
    starts empty. The forms never write the store's own `errors` field.

    Yup's `validate` runs in a library this model does not contain: each
    submit takes its outcome as a parameter, constrained by
    `Validation.Conforms`. */
module Wizard {
  import opened FormTypes
  import opened FormSlice
  import opened Validation
  import PersonalInfoForm
  import AddressForm
  import CreditCardForm

  class Session {
    const store: Store
    /** The email shape Yup's `email()` rule accepts. */
    const isEmail: string -> bool
    /** The local error map of the mounted form. */
    var errors: map<string, string>
    /** How many times the payment form has signalled a successful
        submission (its log line and alert). */
    var completions: nat

    /** The store is valid, and the local error map names only fields of
        the mounted form. */
    ghost predicate Valid()
      reads this, store
    {
      && store.Valid()
      && StepAt(store.currentStep).Some?
      && errors.Keys <= StepAt(store.currentStep).value.Fields()
    }

    constructor (isEmail: string -> bool)
      ensures Valid() && fresh(store)
      ensures store.State() == InitialState()
      ensures this.isEmail == isEmail && errors == map[] && completions == 0
    {
      store := new Store();
      this.isEmail := isEmail;
      errors := map[];
      completions := 0;
    }

    /** Typing into one input of the personal-information form dispatches
        `setPersonalInfo` with the record changed in that field only. */
    method EditPersonalInfo(name: string, value: string)
      requires Valid() && store.currentStep == 1 && name in PersonalInfoFields
      modifies store
      ensures Valid()
      ensures store.State() == old(store.State()).(personalInfo := old(store.personalInfo).With(name, value))
      ensures store.personalInfo.Values() == old(store.personalInfo.Values())[name := value]
    {
      store.SetPersonalInfo(store.personalInfo.With(name, value));
    }

    /** Typing into one input of the address form dispatches `setAddress`
        with the record changed in that field only. */
    method EditAddress(name: string, value: string)
      requires Valid() && store.currentStep == 2 && name in AddressFields
      modifies store
      ensures Valid()
      ensures store.State() == old(store.State()).(address := old(store.address).With(name, value))
      ensures store.address.Values() == old(store.address.Values())[name := value]
    {
      store.SetAddress(store.address.With(name, value));
    }

    /** Typing into one input of the payment form dispatches `setCreditCard`
        with the record changed in that field only. */
    method EditCreditCard(name: string, value: string)
      requires Valid() && store.currentStep == 3 && name in CreditCardFields
      modifies store
      ensures Valid()
      ensures store.State() == old(store.State()).(creditCard := old(store.creditCard).With(name, value))
      ensures store.creditCard.Values() == old(store.creditCard.Values())[name := value]
    {
      store.SetCreditCard(store.creditCard.With(name, value));
    }

    /** Submitting the personal-information form: on success the error map
        is cleared and the step advances to 2; on a validation failure the
        error map is replaced by the fold of the failures, with one entry per
        failing field, and the store is unchanged; any other error changes
        nothing. */
    method SubmitPersonalInfo(outcome: Outcome)
      requires Valid() && store.currentStep == 1
      requires Conforms(PersonalInfoForm.Schema, store.personalInfo.Values(), isEmail, outcome)
      modifies this, store
      ensures Valid() && completions == old(completions)
      ensures outcome.Passed? ==>
        errors == map[] && store.State() == old(store.State()).(currentStep := 2)
      ensures outcome.Failed? ==>
        && errors == ErrorMapOf(outcome.inner)
        && errors.Keys == FailingFields(PersonalInfoForm.Schema, store.personalInfo.Values(), isEmail)
        && store.State() == old(store.State())
      ensures outcome.OtherError? ==> errors == old(errors) && store.State() == old(store.State())
    {
      match outcome {
        case Passed =>
          errors := map[];
          store.NextStep();
        case Failed(inner) =>
          PersonalInfoForm.ErrorKeys(store.personalInfo, isEmail, inner);
          errors := ErrorMapOf(inner);
        case OtherError =>
      }
    }

    /** Submitting the address form: as for the first step, advancing to
        step 3 on success. */
    method SubmitAddress(outcome: Outcome)
      requires Valid() && store.currentStep == 2
      requires Conforms(AddressForm.Schema, store.address.Values(), isEmail, outcome)
      modifies this, store
      ensures Valid() && completions == old(completions)
      ensures outcome.Passed? ==>
        errors == map[] && store.State() == old(store.State()).(currentStep := 3)
      ensures outcome.Failed? ==>
        && errors == ErrorMapOf(outcome.inner)
        && errors.Keys == FailingFields(AddressForm.Schema, store.address.Values(), isEmail)
        && store.State() == old(store.State())
      ensures outcome.OtherError? ==> errors == old(errors) && store.State() == old(store.State())
    {
      match outcome {
        case Passed =>
          errors := map[];
          store.NextStep();
        case Failed(inner) =>
          AddressForm.ErrorKeys(store.address, isEmail, inner);
          errors := ErrorMapOf(inner);
        case OtherError =>
      }
    }

    /** Submitting the payment form: on success the error map is cleared and
        completion is signalled once more, while the step stays at 3; a
        failure replaces the error map and changes nothing else; any other
        error changes nothing. */
    method SubmitCreditCard(outcome: Outcome)
      requires Valid() && store.currentStep == 3
      requires Conforms(CreditCardForm.Schema, store.creditCard.Values(), isEmail, outcome)
      modifies this, store
      ensures Valid() && store.State() == old(store.State())
      ensures outcome.Passed? ==> errors == map[] && completions == old(completions) + 1
      ensures outcome.Failed? ==>
        && errors == ErrorMapOf(outcome.inner)
        && errors.Keys == FailingFields(CreditCardForm.Schema, store.creditCard.Values(), isEmail)
        && completions == old(completions)
      ensures outcome.OtherError? ==> errors == old(errors) && completions == old(completions)
    {
      match outcome {
        case Passed =>
          errors := map[];
          completions := completions + 1;
        case Failed(inner) =>
          CreditCardForm.ErrorKeys(store.creditCard, isEmail, inner);
          errors := ErrorMapOf(inner);
        case OtherError =>
      }
    }

    /** The Previous button of the address and payment forms dispatches
        `previousStep` and nothing else; the form of the previous step is
        mounted with an empty error map. */
    method Previous()
      requires Valid() && store.currentStep >= 2
      modifies this, store
      ensures Valid() && completions == old(completions)
      ensures store.State() == old(store.State()).(currentStep := old(store.currentStep) - 1)
      ensures errors == map[]
    {
      store.PreviousStep();
      errors := map[];
    }
  }
}
