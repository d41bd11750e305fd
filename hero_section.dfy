/** The hero section's contact form: four text inputs whose submit handler
    checks them and records a contact submission in the shared store. */
module HeroSection {
  import opened Types
  import opened DataContext

  const EmptyContactForm: ContactFields := ContactFields("", "", "", "")
  const FillInAllFields: string := "Please fill in all fields"
  const WeWillContactYou: string := "Thank you! We will contact you soon."

  /** The guard of `handleSubmit`: all four fields are non-empty. */
  predicate ContactFormComplete(form: ContactFields) {
    Filled(form.fullName) && Filled(form.email) && Filled(form.mobile) && Filled(form.city)
  }

  class ContactForm {
    const store: Store
    var formData: ContactFields
    var isSubmitting: bool

    constructor (store: Store)
      ensures this.store == store && formData == EmptyContactForm && !isSubmitting
    {
      this.store := store;
      formData := EmptyContactForm;
      isSubmitting := false;
    }

    /** The inputs' change handlers, which replace the form's fields. */
    method EditForm(form: ContactFields)
      modifies this
      ensures formData == form && isSubmitting == old(isSubmitting)
    {
      formData := form;
    }

    /** Submitting the form. With a field missing nothing is recorded and the form is kept;
        otherwise exactly one submission carrying the four values is appended and the form
        is cleared. Either way the form is no longer submitting when the handler returns. */
    method HandleSubmit(id: string, createdAt: string) returns (toast: Toast)
      requires store.Valid()
      modifies this, store
      ensures store.Valid()
      ensures !isSubmitting
      ensures toast.Success? <==> ContactFormComplete(old(formData))
      ensures !ContactFormComplete(old(formData)) ==>
        toast == Error(FillInAllFields) && formData == old(formData) && unchanged(store)
      ensures ContactFormComplete(old(formData)) ==>
        && toast == Success(WeWillContactYou)
        && store.contacts == old(store.contacts) + [NewContact(old(formData), id, createdAt)]
        && store.projects == old(store.projects) && store.clients == old(store.clients)
        && store.newsletters == old(store.newsletters)
        && formData == EmptyContactForm
    {
      isSubmitting := true;
      if !ContactFormComplete(formData) {
        isSubmitting := false;
        return Error(FillInAllFields);
      }
      store.AddContact(formData, id, createdAt);
      toast := Success(WeWillContactYou);
      formData := EmptyContactForm;
      isSubmitting := false;
    }
  }
}
