/** The record shapes of the application data store, and the field bundles
    that callers hand to the store (a record minus what the store assigns). */
module Types {

  datatype Option<T> = None | Some(value: T)

  /** A listed project. `image` is a URI or an inline data URI. */
  datatype Project = Project(id: string, name: string, description: string, category: string, image: string)

  /** A client testimonial. */
  datatype Client = Client(id: string, name: string, designation: string, description: string, image: string)

  /** A contact-form submission; `createdAt` is an ISO-8601 timestamp. */
  datatype ContactSubmission = ContactSubmission(
    id: string, fullName: string, email: string, mobile: string, city: string, createdAt: string)

  /** A newsletter signup. */
  datatype NewsletterSubscription = NewsletterSubscription(id: string, email: string, createdAt: string)

  /** What `addProject` receives: a project without its id. */
  datatype ProjectFields = ProjectFields(name: string, description: string, category: string, image: string)

  /** What `addClient` receives: a client without its id. */
  datatype ClientFields = ClientFields(name: string, designation: string, description: string, image: string)

  /** What `addContact` receives: a submission without id and timestamp. */
  datatype ContactFields = ContactFields(fullName: string, email: string, mobile: string, city: string)

  /** A transient notification shown to the user (the toast library's `success` and `error`). */
  datatype Toast = Success(message: string) | Error(message: string)

  /** JavaScript truthiness of a string: only the empty string is falsy. */
  predicate Filled(s: string) { s != "" }

  /** JavaScript truthiness of a `string | null`: null and the empty string are falsy. */
  predicate Present(s: Option<string>) { s.Some? && s.value != "" }
}
