/** The footer's newsletter form: one email input whose submit handler checks
    the address and subscribes it in the shared store. */
module Footer {
  import opened Types
  import opened DataContext

  const EnterEmail: string := "Please enter your email address"
  const EnterValidEmail: string := "Please enter a valid email address"
  const ThanksForSubscribing: string := "Thank you for subscribing!"

  /** The outcome of the handler's two checks, in the order it makes them:
      None when the address passes both, otherwise the error it reports. */
  function RejectEmail(email: string): (r: Option<string>)
    ensures r == None <==> email != "" && '@' in email
    ensures email == "" ==> r == Some(EnterEmail)
    ensures email != "" && '@' !in email ==> r == Some(EnterValidEmail)
  {
    if !Filled(email) then Some(EnterEmail)
    else if '@' !in email then Some(EnterValidEmail)
    else None
  }

  class NewsletterForm {
    const store: Store
    var email: string

    constructor (store: Store)
      ensures this.store == store && email == ""
    {
      this.store := store;
      email := "";
    }

    /** The input's change handler. */
    method SetEmail(value: string)
      modifies this
      ensures email == value
    {
      email := value;
    }

    /** Submitting the form. A rejected address changes neither the input nor the store;
        an accepted one is passed unchanged to `addNewsletter` and the input is cleared,
        also when the address was already subscribed and the store kept its list. */
    method HandleSubscribe(id: string, createdAt: string) returns (toast: Toast)
      requires store.Valid()
      modifies this, store
      ensures store.Valid()
      ensures toast.Success? <==> RejectEmail(old(email)) == None
      ensures RejectEmail(old(email)).Some? ==>
        toast == Error(RejectEmail(old(email)).value) && unchanged(this) && unchanged(store)
      ensures RejectEmail(old(email)) == None ==>
        && toast == Success(ThanksForSubscribing)
        && store.newsletters == Subscribe(old(store.newsletters), old(email), id, createdAt)
        && store.projects == old(store.projects) && store.clients == old(store.clients)
        && store.contacts == old(store.contacts)
        && email == ""
    {
      var rejection := RejectEmail(email);
      if rejection.Some? {
        return Error(rejection.value);
      }
      store.AddNewsletter(email, id, createdAt);
      toast := Success(ThanksForSubscribing);
      email := "";
    }
  }
}
