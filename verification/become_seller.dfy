/**
 * Seller registration: four store fields and a subscription plan, validated
 * together, then handed to the opaque `becomeSeller` call.
 */
module BecomeSeller {
  import opened Wrappers
  import opened Text

  datatype Plan = Plan(id: string, name: string, price: nat)

  /** Prices are in kobo, the unit the screen divides by 100 for display. */
  const SubscriptionPlans: seq<Plan> := [Plan("standard", "Standard", 100000), Plan("premium", "Premium", 300000)]

  const StoreNameRequired := "Store name is required"
  const DescriptionRequired := "Description is required"
  const PhoneRequired := "Phone number is required"
  const AddressRequired := "Address is required"
  const PlanRequired := "Please select a subscription plan"
  const SubmitFallback := "Failed to register as seller. Please try again."

  datatype SellerForm = SellerForm(storeName: string, description: string, phone: string, address: string, selectedPlan: string)

  /** The error record; "" is a field without an error. */
  datatype SellerErrors = SellerErrors(
    storeName: string, description: string, phone: string, address: string, plan: string, submit: string)

  const NoErrors := SellerErrors("", "", "", "", "", "")

  function RequiredError(value: string, message: string): string {
    if IsBlank(value) then message else ""
  }

  /** The record `validateForm` writes: every check runs, and `submit` is reset. */
  function ErrorsOf(f: SellerForm): (e: SellerErrors)
    ensures e.storeName == StoreNameRequired <==> IsBlank(f.storeName)
    ensures e.storeName == "" <==> !IsBlank(f.storeName)
    ensures e.description == DescriptionRequired <==> IsBlank(f.description)
    ensures e.description == "" <==> !IsBlank(f.description)
    ensures e.phone == PhoneRequired <==> IsBlank(f.phone)
    ensures e.phone == "" <==> !IsBlank(f.phone)
    ensures e.address == AddressRequired <==> IsBlank(f.address)
    ensures e.address == "" <==> !IsBlank(f.address)
    ensures e.plan == PlanRequired <==> f.selectedPlan == ""
    ensures e.plan == "" <==> f.selectedPlan != ""
    ensures e.submit == ""
  {
    SellerErrors(
      RequiredError(f.storeName, StoreNameRequired),
      RequiredError(f.description, DescriptionRequired),
      RequiredError(f.phone, PhoneRequired),
      RequiredError(f.address, AddressRequired),
      if f.selectedPlan == "" then PlanRequired else "",
      "")
  }

  predicate SellerValid(f: SellerForm) {
    !IsBlank(f.storeName) && !IsBlank(f.description) && !IsBlank(f.phone) && !IsBlank(f.address)
    && f.selectedPlan != ""
  }

  /** Validation passes exactly when every error string it writes is empty. */
  lemma ErrorsEmptyIffValid(f: SellerForm)
    ensures ErrorsOf(f) == NoErrors <==> SellerValid(f)
  {
  }

  /**
   * The errors on screen only ever describe the current form: a field error
   * stands for a blank field and the plan error for a missing plan.
   */
  ghost predicate ErrorsDescribe(e: SellerErrors, f: SellerForm) {
    && (e.storeName != "" ==> IsBlank(f.storeName))
    && (e.description != "" ==> IsBlank(f.description))
    && (e.phone != "" ==> IsBlank(f.phone))
    && (e.address != "" ==> IsBlank(f.address))
    && (e.plan != "" ==> f.selectedPlan == "")
  }

  /** For a valid form, errors that describe it are empty apart from `submit`. */
  lemma DescribedErrorsOfValidForm(e: SellerErrors, f: SellerForm)
    requires ErrorsDescribe(e, f) && SellerValid(f)
    ensures e.(submit := "") == NoErrors
  {
  }

  datatype StoreInfo = StoreInfo(storeName: string, description: string, address: string)

  datatype SellerRequest = SellerRequest(info: StoreInfo, planId: string)

  /** How the awaited `becomeSeller` call ends; a message of "" stands for a missing or empty `error.message`. */
  datatype CallOutcome = Succeeds | Throws(message: string)

  datatype Field = StoreName | Description | Phone | Address

  /** The body of `validateForm`: every check runs, each failing one writes its message and clears the flag. */
  method CollectErrors(f: SellerForm) returns (newErrors: SellerErrors, isValid: bool)
    ensures isValid <==> SellerValid(f)
    ensures newErrors == ErrorsOf(f)
  {
    newErrors := NoErrors;
    isValid := true;
    TrimEmptyIffBlank(f.storeName);
    TrimEmptyIffBlank(f.description);
    TrimEmptyIffBlank(f.phone);
    TrimEmptyIffBlank(f.address);
    if Trim(f.storeName) == [] {
      newErrors := newErrors.(storeName := StoreNameRequired);
      isValid := false;
    }
    if Trim(f.description) == [] {
      newErrors := newErrors.(description := DescriptionRequired);
      isValid := false;
    }
    if Trim(f.phone) == [] {
      newErrors := newErrors.(phone := PhoneRequired);
      isValid := false;
    }
    if Trim(f.address) == [] {
      newErrors := newErrors.(address := AddressRequired);
      isValid := false;
    }
    if f.selectedPlan == "" {
      newErrors := newErrors.(plan := PlanRequired);
      isValid := false;
    }
  }

  class SellerScreen {
    var form: SellerForm
    var errors: SellerErrors
    var loading: bool
    var submitting: bool

    ghost predicate Valid()
      reads this
    {
      ErrorsDescribe(errors, form)
    }

    constructor ()
      ensures Valid()
      ensures form == SellerForm("", "", "", "", "") && errors == NoErrors && !loading && !submitting
    {
      form := SellerForm("", "", "", "", "");
      errors := NoErrors;
      loading, submitting := false, false;
    }

    /** Editing a store field stores the text and clears that field's error and the submit error. */
    method Edit(field: Field, text: string)
      requires Valid()
      modifies this
      ensures Valid()
      ensures form == match field
        case StoreName => old(form).(storeName := text)
        case Description => old(form).(description := text)
        case Phone => old(form).(phone := text)
        case Address => old(form).(address := text)
      ensures errors == match field
        case StoreName => old(errors).(storeName := "", submit := "")
        case Description => old(errors).(description := "", submit := "")
        case Phone => old(errors).(phone := "", submit := "")
        case Address => old(errors).(address := "", submit := "")
      ensures loading == old(loading) && submitting == old(submitting)
    {
      match field {
        case StoreName =>
          form := form.(storeName := text);
          errors := errors.(storeName := "", submit := "");
        case Description =>
          form := form.(description := text);
          errors := errors.(description := "", submit := "");
        case Phone =>
          form := form.(phone := text);
          errors := errors.(phone := "", submit := "");
        case Address =>
          form := form.(address := text);
          errors := errors.(address := "", submit := "");
      }
    }

    /** Selecting a plan card makes it the selection and clears only the plan error. */
    method SelectPlan(planId: string)
      requires Valid() && planId != ""
      modifies this
      ensures Valid()
      ensures form == old(form).(selectedPlan := planId)
      ensures errors == old(errors).(plan := "")
      ensures loading == old(loading) && submitting == old(submitting)
    {
      form := form.(selectedPlan := planId);
      errors := errors.(plan := "");
    }

    /** A plan card is drawn selected exactly when its id is the selection. */
    predicate IsSelected(plan: Plan)
      reads this
    {
      form.selectedPlan == plan.id
    }

    /** `validateForm`: collects every error, with no short-circuit, and writes the record. */
    method ValidateForm() returns (isValid: bool)
      modifies this
      ensures isValid <==> SellerValid(form)
      ensures errors == ErrorsOf(form)
      ensures Valid()
      ensures form == old(form) && loading == old(loading) && submitting == old(submitting)
    {
      var newErrors;
      newErrors, isValid := CollectErrors(form);
      errors := newErrors;
    }

    /**
     * `handleSubmit`. An invalid form stops after validation. A valid one
     * sends the store name, description and address (not the phone) with the
     * plan id. On a throw the catch spreads the error record captured before
     * validation; because that record describes the same form, the result is
     * the same as spreading the current one.
     */
    method HandleSubmit(outcome: CallOutcome) returns (request: Option<SellerRequest>)
      requires Valid()
      modifies this
      ensures Valid()
      ensures form == old(form)
      ensures request.Some? <==> SellerValid(form)
      ensures request.None? ==> errors == ErrorsOf(form) && loading == old(loading) && submitting == old(submitting)
      ensures request.Some? ==>
        request.value == SellerRequest(StoreInfo(form.storeName, form.description, form.address), form.selectedPlan)
        && !loading && !submitting
      ensures request.Some? && outcome.Succeeds? ==> errors == NoErrors
      ensures request.Some? && outcome.Throws? ==>
        errors == NoErrors.(submit := if outcome.message != "" then outcome.message else SubmitFallback)
    {
      var staleErrors := errors;
      var ok := ValidateForm();
      if !ok {
        return None;
      }
      loading, submitting := true, true;
      request := Some(SellerRequest(StoreInfo(form.storeName, form.description, form.address), form.selectedPlan));
      if outcome.Throws? {
        DescribedErrorsOfValidForm(staleErrors, form);
        errors := staleErrors.(submit := if outcome.message != "" then outcome.message else SubmitFallback);
      }
      loading, submitting := false, false;
    }
  }

  /** The two plan ids differ, so at most one card is ever drawn selected. */
  lemma PlanIdsDistinct()
    ensures forall i, j :: 0 <= i < j < |SubscriptionPlans| ==> SubscriptionPlans[i].id != SubscriptionPlans[j].id
  {
  }
}
