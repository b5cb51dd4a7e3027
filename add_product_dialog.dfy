/** The company's "Add Product" dialog: its form record and open flag, the
    effect that fills in the company email, the submit guards, the reply check
    and the reset after a successful create. */
module AddProduct {
  import opened Wrappers
  import opened Collections
  import opened Session

  datatype ProductForm = ProductForm(
    company_email: string,
    product_name: string,
    category: string,
    material: string,
    size: string,
    batch_no: string,
    manufacture_date: string,
    price: string)

  /** A blank form; `today` is the ISO date of the current day. */
  function BlankForm(companyEmail: string, today: string): (f: ProductForm)
    ensures f.company_email == companyEmail && f.manufacture_date == today
    ensures f.product_name == f.category == f.material == f.size == f.batch_no == f.price == ""
  {
    ProductForm(companyEmail, "", "", "", "", "", today, "")
  }

  /** The reply of the create-product endpoint, as far as the dialog reads it. */
  datatype CreateReply = CreateReply(status: Option<string>, detail: Option<string>, message: Option<string>)

  const DefaultCreateError := "Failed to create product"

  /** The mutation function's check: a reply whose status is not "success"
      becomes an error, whose message is the detail, else the message, else a
      fixed text. */
  function CheckCreateReply(reply: CreateReply): (r: Result<CreateReply, string>)
    ensures r.Success? <==> reply.status == Some("success")
    ensures r.Success? ==> r.value == reply
    ensures r.Failure? ==> r.error != ""
    ensures r.Failure? && Truthy(reply.detail) ==> r.error == reply.detail.value
    ensures r.Failure? && !Truthy(reply.detail) && Truthy(reply.message) ==> r.error == reply.message.value
    ensures r.Failure? && !Truthy(reply.detail) && !Truthy(reply.message) ==> r.error == DefaultCreateError
  {
    if reply.status != Some("success") then Failure(OrElse(reply.detail, OrElse(reply.message, DefaultCreateError)))
    else Success(reply)
  }

  /** What pressing "Create Product" does. */
  datatype SubmitOutcome = Rejected(reason: string) | Create(form: ProductForm)

  const NotCompanyError := "Only companies can add products"
  const NoEmailError := "Company email not found. Please login again."

  class AddProductDialog {
    const store: SessionStorage
    var open: bool
    var formData: ProductForm
    var createPending: bool

    constructor (store: SessionStorage, today: string)
      ensures this.store == store
      ensures !open && !createPending
      ensures formData == BlankForm("", today)
    {
      this.store := store;
      open := false;
      createPending := false;
      formData := BlankForm("", today);
    }

    /** The effect on `[open, userEmail, userRole]`: an open dialog of a
        signed-in company takes the session email and changes nothing else. */
    method FillCompanyEmail()
      modifies this`formData
      ensures open && GetUserRole(store) == Some("company") && Truthy(GetUserEmail(store)) ==>
        formData == old(formData).(company_email := GetUserEmail(store).value)
      ensures !(open && GetUserRole(store) == Some("company") && Truthy(GetUserEmail(store))) ==>
        formData == old(formData)
    {
      var email := GetUserEmail(store);
      if open && GetUserRole(store) == Some("company") && Truthy(email) {
        formData := formData.(company_email := email.value);
      }
    }

    /** `onOpenChange`, followed by the effect it triggers. */
    method SetOpen(value: bool)
      modifies this`open, this`formData
      ensures open == value
      ensures value && GetUserRole(store) == Some("company") && Truthy(GetUserEmail(store)) ==>
        formData == old(formData).(company_email := GetUserEmail(store).value)
      ensures !(value && GetUserRole(store) == Some("company") && Truthy(GetUserEmail(store))) ==>
        formData == old(formData)
    {
      open := value;
      FillCompanyEmail();
    }

    /** `handleSubmit`: the role is checked before the email, and only a
        company with an email sends the form, unchanged. */
    method HandleSubmit() returns (outcome: SubmitOutcome)
      ensures GetUserRole(store) != Some("company") ==> outcome == Rejected(NotCompanyError)
      ensures GetUserRole(store) == Some("company") && !Truthy(GetUserEmail(store)) ==> outcome == Rejected(NoEmailError)
      ensures outcome.Create? <==> GetUserRole(store) == Some("company") && Truthy(GetUserEmail(store))
      ensures outcome.Create? ==> outcome.form == formData
      ensures !SubmitDisabled() ==> (outcome.Create? <==> GetUserRole(store) == Some("company"))
    {
      if GetUserRole(store) != Some("company") {
        return Rejected(NotCompanyError);
      }
      if !Truthy(GetUserEmail(store)) {
        return Rejected(NoEmailError);
      }
      outcome := Create(formData);
    }

    /** The create request settles: a reply that passes the check closes the
        dialog and blanks the form, keeping the session email (or "") and
        dating it today; any other outcome leaves the dialog as it is. */
    method CreateSettled(reply: Result<CreateReply, string>, today: string)
      modifies this`open, this`formData
      ensures reply.Success? && CheckCreateReply(reply.value).Success? ==>
        !open && formData == BlankForm(OrElse(GetUserEmail(store), ""), today)
      ensures !(reply.Success? && CheckCreateReply(reply.value).Success?) ==>
        open == old(open) && formData == old(formData)
    {
      if reply.Success? && CheckCreateReply(reply.value).Success? {
        open := false;
        formData := BlankForm(OrElse(GetUserEmail(store), ""), today);
      }
    }

    /** The submit button is disabled while a create is in flight or when no
        email is stored. */
    predicate SubmitDisabled()
      reads this, store
    {
      createPending || !Truthy(GetUserEmail(store))
    }
  }
}
