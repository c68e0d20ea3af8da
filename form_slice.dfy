/** The wizard's store slice (src/store/formSlice.ts): its initial state and
    its six reducers, which update the state in place. */
module FormSlice {
  import opened FormTypes

  /** True when every field of a record view is the empty string. */
  predicate Blank(values: map<string, string>)
  {
    forall name :: name in values ==> values[name] == ""
  }

  /** The state a session starts in. */
  function InitialState(): (s: FormState)
    ensures s.currentStep == 1
    ensures Blank(s.personalInfo.Values()) && Blank(s.address.Values()) && Blank(s.creditCard.Values())
    ensures s.errors.personalInfo == map[] && s.errors.address == map[] && s.errors.creditCard == map[]
  {
    FormState(
      1,
      PersonalInfo("", "", "", ""),
      Address("", "", "", ""),
      CreditCard("", "", "", ""),
      NoErrors)
  }

  /** The two reducers that move between steps. */
  datatype Move = Next | Previous

  /** `currentStep` after one `nextStep` or `previousStep`. */
  function StepAfter(step: int, move: Move): (r: int)
    ensures 1 <= step <= 3 ==> 1 <= r <= 3
  {
    match move
    case Next => if step < 3 then step + 1 else step
    case Previous => if step > 1 then step - 1 else step
  }

  /** `currentStep` after a sequence of `nextStep`/`previousStep` dispatches. */
  function StepAfterAll(step: int, moves: seq<Move>): int
    decreases |moves|
  {
    if moves == [] then step else StepAfterAll(StepAfter(step, moves[0]), moves[1..])
  }

  /** `nextStep` raises the step by exactly one below 3 and saturates at 3;
      `previousStep` lowers it by exactly one above 1 and saturates at 1. */
  lemma MovesAreClamped(step: int)
    requires 1 <= step <= 3
    ensures StepAfter(step, Next) == step + 1 <==> step < 3
    ensures StepAfter(step, Next) == step <==> step == 3
    ensures StepAfter(step, Previous) == step - 1 <==> step > 1
    ensures StepAfter(step, Previous) == step <==> step == 1
  {
  }

  /** Starting anywhere in [1, 3], every sequence of moves stays in [1, 3]. */
  lemma {:induction false} StepsStayInRange(step: int, moves: seq<Move>)
    requires 1 <= step <= 3
    ensures 1 <= StepAfterAll(step, moves) <= 3
    decreases |moves|
  {
    if moves != [] {
      StepsStayInRange(StepAfter(step, moves[0]), moves[1..]);
    }
  }

  /** In particular from the initial state. */
  lemma StepsFromStartStayInRange(moves: seq<Move>)
    ensures 1 <= StepAfterAll(InitialState().currentStep, moves) <= 3
  {
    StepsStayInRange(InitialState().currentStep, moves);
  }

  /** The step rises by at most one per move, so reaching step k from step 1
      takes at least k - 1 moves. */
  lemma {:induction false} StepRisesAtMostOnePerMove(step: int, moves: seq<Move>)
    ensures StepAfterAll(step, moves) <= step + |moves|
    decreases |moves|
  {
    if moves != [] {
      StepRisesAtMostOnePerMove(StepAfter(step, moves[0]), moves[1..]);
    }
  }

  /** `nextStep` then `previousStep` returns to where it started exactly when
      the start was below the last step. */
  lemma NextThenPrevious(step: int)
    requires 1 <= step <= 3
    ensures StepAfterAll(step, [Next, Previous]) == step <==> step < 3
  {
    assert [Next, Previous][1..] == [Previous];
  }

  /** `Partial<FormState['errors']>`: the error maps a `setErrors` payload names. */
  datatype ErrorsPatch = ErrorsPatch(
    personalInfo: Option<map<string, string>>,
    address: Option<map<string, string>>,
    creditCard: Option<map<string, string>>)
  {
    predicate WellTyped()
    {
      (personalInfo.Some? ==> IsPartialOf(personalInfo.value, PersonalInfoFields))
      && (address.Some? ==> IsPartialOf(address.value, AddressFields))
      && (creditCard.Some? ==> IsPartialOf(creditCard.value, CreditCardFields))
    }
  }

  /** `{ ...errors, ...patch }`: a shallow merge, step by step. */
  function MergeErrors(errors: FormErrors, patch: ErrorsPatch): (r: FormErrors)
    ensures patch.personalInfo.None? ==> r.personalInfo == errors.personalInfo
    ensures patch.address.None? ==> r.address == errors.address
    ensures patch.creditCard.None? ==> r.creditCard == errors.creditCard
    ensures patch.personalInfo.Some? ==> r.personalInfo == patch.personalInfo.value
    ensures patch.address.Some? ==> r.address == patch.address.value
    ensures patch.creditCard.Some? ==> r.creditCard == patch.creditCard.value
    ensures errors.WellTyped() && patch.WellTyped() ==> r.WellTyped()
  {
    FormErrors(
      if patch.personalInfo.Some? then patch.personalInfo.value else errors.personalInfo,
      if patch.address.Some? then patch.address.value else errors.address,
      if patch.creditCard.Some? then patch.creditCard.value else errors.creditCard)
  }

  /** Applying the same payload twice is the same as applying it once. */
  lemma MergeErrorsIdempotent(errors: FormErrors, patch: ErrorsPatch)
    ensures MergeErrors(MergeErrors(errors, patch), patch) == MergeErrors(errors, patch)
  {
  }

  /** The store's state, updated in place by the reducers. */
  class Store {
    var currentStep: int
    var personalInfo: PersonalInfo
    var address: Address
    var creditCard: CreditCard
    var errors: FormErrors

    /** The state as one value. */
    function State(): FormState
      reads this
    {
      FormState(currentStep, personalInfo, address, creditCard, errors)
    }

    /** The step is in [1, 3] and each step's error map is a partial record of
        that step's type. */
    ghost predicate Valid()
      reads this
    {
      1 <= currentStep <= 3 && errors.WellTyped()
    }

    constructor ()
      ensures Valid() && State() == InitialState()
    {
      var initial := InitialState();
      currentStep := initial.currentStep;
      personalInfo := initial.personalInfo;
      address := initial.address;
      creditCard := initial.creditCard;
      errors := initial.errors;
    }

    method SetPersonalInfo(payload: PersonalInfo)
      requires Valid()
      modifies this
      ensures Valid()
      ensures State() == old(State()).(personalInfo := payload)
    {
      personalInfo := payload;
    }

    method SetAddress(payload: Address)
      requires Valid()
      modifies this
      ensures Valid()
      ensures State() == old(State()).(address := payload)
    {
      address := payload;
    }

    method SetCreditCard(payload: CreditCard)
      requires Valid()
      modifies this
      ensures Valid()
      ensures State() == old(State()).(creditCard := payload)
    {
      creditCard := payload;
    }

    method NextStep()
      requires Valid()
      modifies this
      ensures Valid()
      ensures State() == old(State()).(currentStep := StepAfter(old(currentStep), Next))
    {
      if currentStep < 3 {
        currentStep := currentStep + 1;
      }
    }

    method PreviousStep()
      requires Valid()
      modifies this
      ensures Valid()
      ensures State() == old(State()).(currentStep := StepAfter(old(currentStep), Previous))
    {
      if currentStep > 1 {
        currentStep := currentStep - 1;
      }
    }

    method SetErrors(payload: ErrorsPatch)
      requires Valid() && payload.WellTyped()
      modifies this
      ensures Valid()
      ensures State() == old(State()).(errors := MergeErrors(old(errors), payload))
    {
      errors := MergeErrors(errors, payload);
    }
  }
}
