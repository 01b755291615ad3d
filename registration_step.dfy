/** The registration form of RegistrationStep.tsx: contact details and a password, checked
    against its confirmation, then the registration fee through the checkout widget. */
module RegistrationStep {
  import opened Domain
  import opened Catalog
  import MockApi

  /** The text inputs handled by `handleChange`; the two password inputs have their own. */
  datatype ContactField = Name | Email | Phone | Organization

  /** The form's `formData`: the registration data without the password. */
  datatype ContactDetails = ContactDetails(name: string, email: string, phone: string, organization: string)
  {
    function Get(f: ContactField): string {
      match f
      case Name => name
      case Email => email
      case Phone => phone
      case Organization => organization
    }

    /** `handleChange`: the input's own field takes the new value and every other keeps its own. */
    function With(f: ContactField, value: string): (r: ContactDetails)
      ensures forall g :: r.Get(g) == if g == f then value else Get(g)
    {
      match f
      case Name => this.(name := value)
      case Email => this.(email := value)
      case Phone => this.(phone := value)
      case Organization => this.(organization := value)
    }
  }

  /** The checkout for the registration fee: the category's price in paise. */
  function RegistrationCheckout(info: UserCategoryInfo): (r: CheckoutRequest)
    ensures r.amountPaise == 100 * info.price && r.currency == "INR"
    ensures r.description == "Registration Fee for " + info.displayName
  {
    CheckoutRequest(info.price * 100, "INR", "Registration Fee for " + info.displayName)
  }

  /** The fee charged at the checkout is the amount the mock API records for the registration,
      converted from rupees to paise, under the same description. */
  lemma CheckoutMatchesRecordedFee(info: UserCategoryInfo, paymentId: string, now: int)
    ensures RegistrationCheckout(info).amountPaise == 100 * MockApi.RegistrationPayment(info, paymentId, now).amount
    ensures RegistrationCheckout(info).description == MockApi.RegistrationPayment(info, paymentId, now).description
  {
  }

  /** `isFormValid`: name, email, phone and password given, and the password confirmed. */
  predicate IsFormValid(details: ContactDetails, password: string, confirmPassword: string) {
    details.name != "" && details.email != "" && details.phone != "" && password != ""
    && password == confirmPassword
  }

  /** The organization is optional: whatever is typed into it, validity stays as it was. */
  lemma OrganizationIsOptional(details: ContactDetails, value: string, password: string, confirmPassword: string)
    ensures IsFormValid(details.With(Organization, value), password, confirmPassword)
         == IsFormValid(details, password, confirmPassword)
  {
    var r := details.With(Organization, value);
    assert r.Get(Name) == details.Get(Name) && r.Get(Email) == details.Get(Email) && r.Get(Phone) == details.Get(Phone);
  }

  class RegistrationForm {
    const info: UserCategoryInfo
    var formData: ContactDetails
    var password: string
    var confirmPassword: string
    var isProcessing: bool

    /** The category comes from the category table, which the view looks up and uses without a
        check; the form is only ever opened for one of the seven categories. */
    constructor(category: UserCategory)
      requires category != Unknown
      ensures info == FindCategory(category).value
      ensures formData == ContactDetails("", "", "", "") && password == "" && confirmPassword == ""
      ensures !isProcessing
    {
      info := FindCategory(category).value;
      formData := ContactDetails("", "", "", "");
      password := "";
      confirmPassword := "";
      isProcessing := false;
    }

    predicate Valid()
      reads this
    {
      IsFormValid(formData, password, confirmPassword)
    }

    /** The submit button is disabled while the form is invalid or a payment is in progress. */
    predicate SubmitDisabled()
      reads this
    {
      !Valid() || isProcessing
    }

    method Change(f: ContactField, value: string)
      modifies this`formData
      ensures formData == old(formData).With(f, value)
    {
      formData := formData.With(f, value);
    }

    method SetPassword(value: string)
      modifies this`password
      ensures password == value
    {
      password := value;
    }

    method SetConfirmPassword(value: string)
      modifies this`confirmPassword
      ensures confirmPassword == value
    {
      confirmPassword := value;
    }

    /** `handleSubmit`: a password that differs from its confirmation stops here (with an
        alert); otherwise the form is marked as processing and the fee checkout opens. */
    method Submit() returns (checkout: Option<CheckoutRequest>)
      modifies this`isProcessing
      ensures password != confirmPassword ==> checkout == None && isProcessing == old(isProcessing)
      ensures password == confirmPassword ==> checkout == Some(RegistrationCheckout(info)) && isProcessing
    {
      if password != confirmPassword {
        return None;
      }
      isProcessing := true;
      checkout := Some(RegistrationCheckout(info));
    }

    /** The end of the checkout: success hands the details and the password to the controller;
        a failure or a dismissal only ends the processing state. */
    method PaymentOutcome(event: PaymentEvent) returns (submitted: Option<RegistrationFormData>)
      modifies this`isProcessing
      ensures event.PaymentSucceeded? ==>
        submitted == Some(RegistrationFormData(formData.name, formData.email, formData.phone,
                                               formData.organization, password))
        && isProcessing == old(isProcessing)
      ensures !event.PaymentSucceeded? ==> submitted == None && !isProcessing
    {
      if event.PaymentSucceeded? {
        submitted := Some(RegistrationFormData(formData.name, formData.email, formData.phone,
                                               formData.organization, password));
      } else {
        isProcessing := false;
        submitted := None;
      }
    }
  }

  /** A valid form always reaches the checkout, for the fee of its own category. */
  method ValidFormReachesCheckout(form: RegistrationForm) returns (checkout: Option<CheckoutRequest>)
    requires form.Valid()
    modifies form
    ensures checkout.Some? && checkout.value.amountPaise == 100 * form.info.price
    ensures form.SubmitDisabled()
  {
    checkout := form.Submit();
  }
}
