# RealTrust application store, modelled in Dafny

RealTrust is a marketing landing page with an admin panel. All of its state lives in one
in-memory store, `DataProvider`. The store holds four ordered collections: projects,
client testimonials, contact-form submissions and newsletter subscriptions. Six operations
change it: three appends (`addProject`, `addClient`, `addContact`), one append that skips
duplicate addresses (`addNewsletter`), and two deletes by id (`deleteProject`,
`deleteClient`). Four form handlers, in three components, decide whether the store is called at all. The admin
panel's project and client forms, the footer's newsletter form and the hero section's
contact form each check their fields first. Then they either leave everything as it was
or make exactly one store call and reset their form.

Files:

- `types.dfy` (module `Types`): the four record shapes, the field bundles callers pass in,
  the `Toast` notification, and JavaScript string truthiness (`Filled`, `Present`).
- `sequences.dfy` (module `Sequences`): `Array.prototype.filter` and `.find` as the
  functions `Filter` and `Find`, plus the facts about them that the store uses: order is
  kept, multiplicities are kept, filtering is idempotent, and what removing one element does.
- `data_context.dfy` (module `DataContext`): the seed data and the class `Store`, with one
  `seq` field per collection and one method per operation. Every method states the whole
  new state. This includes "the other three collections are unchanged" and the two-state
  predicate `OnlyGrew`, which says contacts and newsletters never shrink. `Valid()`
  (newsletter addresses are distinct) is kept by every method. The pure function
  `Subscribe` specifies `addNewsletter`, and the lemmas beside it prove idempotence, that
  distinct addresses stay distinct, and "exactly one record per subscribed address".
- `admin_page.dfy` (module `AdminPage`): class `Admin`, which holds the panel's form state
  and calls the shared store. It covers the tab counts, open/close/edit of both forms,
  both guarded submit handlers and both delete buttons.
- `footer.dfy` (module `Footer`): class `NewsletterForm` and its `HandleSubscribe`.
- `hero_section.dfy` (module `HeroSection`): class `ContactForm` and its `HandleSubmit`.

The clock is not modelled. `Date.now().toString()` and `new Date().toISOString()` become
parameters (`id`, `createdAt`) supplied by the caller. The seed images are bundler asset
imports; the model uses placeholder strings `"@/assets/project-N.jpg"` /
`"@/assets/client-N.jpg"` for them. A toast becomes the returned `Toast` value, carrying
the exact message the source shows.

Three facts about the code shape the model:

- The store's add operations return nothing. They do not return the created record.
- Ids are not guaranteed unique: two calls in the same millisecond get the same id. The
  model has no id-uniqueness invariant. Distinct ids are proved only when the caller
  supplies a fresh id (`AddFreshProjectKeepsIdsDistinct`). "Deleting removes exactly one"
  is proved only for collections whose ids are distinct (`DeleteUniqueProject`).
- The image guard is JavaScript truthiness. An image equal to the empty string is rejected
  just like a missing one (`Present`).

## Model

| member | source | states |
|---|---|---|
| DataContext.Store.constructor | src/context/DataContext.tsx:108-112 | the store starts with the five seeded projects and clients, no contacts and no subscriptions |
| DataContext.DefaultIds | src/context/DataContext.tsx:17-91 | five seeded projects and five seeded clients, with ids "1" to "5" in order, distinct |
| DataContext.Store.AddProject | src/context/DataContext.tsx:114-120 | exactly one project, with the given fields and the supplied id, is appended at the end; the other collections are unchanged |
| DataContext.Store.AddClient | src/context/DataContext.tsx:122-128 | exactly one client, with the given fields and the supplied id, is appended at the end; the other collections are unchanged |
| DataContext.Store.AddContact | src/context/DataContext.tsx:130-137 | one submission carrying the given fields, the supplied id and timestamp is appended; the other collections are unchanged |
| DataContext.Store.AddNewsletter | src/context/DataContext.tsx:139-149 | the list becomes `Subscribe(old list, email, id, createdAt)`, found with `find`; addresses stay distinct; the other collections are unchanged |
| DataContext.Store.DeleteProject | src/context/DataContext.tsx:151-153 | projects become the order-preserving filter that drops every record with that id; none with that id remains; the others are unchanged |
| DataContext.Store.DeleteClient | src/context/DataContext.tsx:155-157 | clients become the order-preserving filter that drops every record with that id; none with that id remains; the others are unchanged |
| Sequences.Filter | src/context/DataContext.tsx:152 | the result is no longer than the input and holds exactly the input's elements that satisfy the callback |
| Sequences.Find | src/context/DataContext.tsx:140 | None exactly when no element matches; otherwise the first matching element |
| Sequences.FilterIsSubsequence | src/context/DataContext.tsx:152 | the survivors of a filter keep their original relative order |
| Sequences.FilterMultiplicity | src/context/DataContext.tsx:156 | each kept record survives as many times as it occurred; each dropped one is gone entirely |
| Sequences.FilterIdempotent | src/context/DataContext.tsx:151-157 | deleting the same id twice equals deleting it once |
| DataContext.DeleteAbsentProject | src/context/DataContext.tsx:151-153 | deleting an id that no project has leaves the projects identical |
| DataContext.DeleteAbsentClient | src/context/DataContext.tsx:155-157 | deleting an id that no client has leaves the clients identical |
| DataContext.DeleteUniqueProject | src/context/DataContext.tsx:151-153 | with distinct ids, deleting the id at position i removes exactly that one project, so the length drops by one |
| DataContext.DeleteUniqueClient | src/context/DataContext.tsx:155-157 | with distinct ids, deleting the id at position i removes exactly that one client |
| DataContext.DeleteUndoesAddProject | src/context/DataContext.tsx:114-153 | adding a project with a fresh id and then deleting that id gives back the original list |
| DataContext.DeleteUndoesAddClient | src/context/DataContext.tsx:122-157 | adding a client with a fresh id and then deleting that id gives back the original list |
| DataContext.DeleteKeepsProjectIdsDistinct | src/context/DataContext.tsx:151-153 | deleting by id keeps distinct project ids distinct, so the distinct-ids precondition of `DeleteUniqueProject` carries across deletes |
| DataContext.DeleteKeepsClientIdsDistinct | src/context/DataContext.tsx:155-157 | deleting by id keeps distinct client ids distinct |
| DataContext.AddFreshProjectKeepsIdsDistinct | src/context/DataContext.tsx:114-119 | appending a project whose id is fresh keeps project ids distinct |
| DataContext.AddFreshClientKeepsIdsDistinct | src/context/DataContext.tsx:122-127 | appending a client whose id is fresh keeps client ids distinct |
| DataContext.SubscribeAppendsOrKeeps | src/context/DataContext.tsx:139-149 | an already-subscribed address leaves the list unchanged; a new one is appended once with the given id and timestamp; afterwards the address is subscribed |
| DataContext.SubscribeIdempotent | src/context/DataContext.tsx:140-148 | subscribing the same address a second time changes nothing |
| DataContext.SubscribeKeepsEmailsDistinct | src/context/DataContext.tsx:140-148 | subscribing keeps all addresses in the list distinct |
| DataContext.SubscribedOnce | src/context/DataContext.tsx:140-148 | with distinct addresses, a subscribed address has exactly one record and any other address has none |
| DataContext.SubscribeTwiceLeavesOne | src/context/DataContext.tsx:139-149 | after subscribing an address once or twice, exactly one record carries it |
| AdminPage.Admin.constructor | src/pages/AdminPage.tsx:23-43 | the panel opens on the projects tab with both forms hidden and empty and no images |
| AdminPage.Admin.Tabs | src/pages/AdminPage.tsx:99-104 | four tabs in the order projects, clients, contacts, newsletters; each count is the length of its collection |
| AdminPage.Admin.SelectTab | src/pages/AdminPage.tsx:140 | only the active tab changes |
| AdminPage.Admin.OpenProjectForm | src/pages/AdminPage.tsx:163 | the project form is shown with its contents kept |
| AdminPage.Admin.CloseProjectForm | src/pages/AdminPage.tsx:248 | closing or cancelling hides the project form without clearing its fields or image |
| AdminPage.Admin.EditProjectForm | src/pages/AdminPage.tsx:184-208 | only the project form's text fields change |
| AdminPage.Admin.SetProjectImage | src/pages/AdminPage.tsx:45-54 | the read data URL becomes the project image; nothing else changes |
| AdminPage.Admin.RemoveProjectImage | src/pages/AdminPage.tsx:227 | the project image is cleared; nothing else changes |
| AdminPage.Admin.HandleAddProject | src/pages/AdminPage.tsx:67-81 | success exactly when name, description and category are non-empty and the image is present; on failure, error toast and store and panel unchanged; on success, one project with exactly the form's fields and image is appended, and the form is emptied and hidden |
| AdminPage.Admin.HandleDeleteProject | src/pages/AdminPage.tsx:280-284 | the store's projects are filtered by id and a success toast is shown |
| AdminPage.Admin.OpenClientForm | src/pages/AdminPage.tsx:304 | the client form is shown with its contents kept |
| AdminPage.Admin.CloseClientForm | src/pages/AdminPage.tsx:385 | closing or cancelling hides the client form without clearing its fields or image |
| AdminPage.Admin.EditClientForm | src/pages/AdminPage.tsx:325-345 | only the client form's text fields change |
| AdminPage.Admin.SetClientImage | src/pages/AdminPage.tsx:56-65 | the read data URL becomes the client image; nothing else changes |
| AdminPage.Admin.RemoveClientImage | src/pages/AdminPage.tsx:364 | the client image is cleared; nothing else changes |
| AdminPage.Admin.HandleAddClient | src/pages/AdminPage.tsx:83-97 | the same guard over name, designation, description and image; on success, one client built from them is appended and the form is emptied and hidden; otherwise nothing changes |
| AdminPage.Admin.HandleDeleteClient | src/pages/AdminPage.tsx:413-417 | the store's clients are filtered by id and a success toast is shown |
| Footer.RejectEmail | src/components/landing/Footer.tsx:23-30 | an address passes exactly when it is non-empty and contains '@'; emptiness is checked first, so an empty address always gets "enter your email" |
| Footer.NewsletterForm.constructor | src/components/landing/Footer.tsx:19 | the input starts empty |
| Footer.NewsletterForm.SetEmail | src/components/landing/Footer.tsx:90 | the input takes the typed value |
| Footer.NewsletterForm.HandleSubscribe | src/components/landing/Footer.tsx:21-34 | success exactly when `RejectEmail` passes the address; an empty address, or one without '@', gives the error `RejectEmail` names and changes neither input nor store; otherwise the unchanged address goes to `addNewsletter` and the input is cleared, even when it was a duplicate |
| HeroSection.ContactForm.constructor | src/components/landing/HeroSection.tsx:9-15 | all four fields start empty and the form is not submitting |
| HeroSection.ContactForm.EditForm | src/components/landing/HeroSection.tsx:89-110 | only the form's fields change |
| HeroSection.ContactForm.HandleSubmit | src/components/landing/HeroSection.tsx:17-32 | success exactly when all four fields are non-empty; if one is empty, no contact is added and the form is kept; otherwise exactly one contact with those four values is appended and the form is cleared; `isSubmitting` is false afterwards on both paths |

## Left out

- The `useData` hook's error when it is used outside the provider: React context plumbing.
- React's state batching and closures: each handler runs sequentially and sees the current
  state. `addNewsletter` reads the list from its render closure but appends to the latest
  value; the model has one list, so the two reads agree.
- The clock: ids and timestamps are caller-supplied parameters. The model makes no claim
  that timestamps are ordered or close to the call time, and no claim that ids are unique
  without a freshness precondition.
- Image reading with `FileReader`: asynchronous browser I/O. Its result arrives as the
  string argument of `SetProjectImage` / `SetClientImage`. A failed or aborted read also
  ends in `onloadend`, with a null result, which clears the image; in the model that state
  is reached only through `RemoveProjectImage` / `RemoveClientImage`.
- Toast display: a toast is only a returned success/error value with its message.
- Date formatting with `toLocaleDateString` in the contacts and newsletter tables: it
  depends on the locale.
- Scrolling, the header's mobile menu, routing links, JSX, CSS and animation: presentation
  only. The same goes for the sections that only render store data (about, projects,
  clients, the index page).
- DataContext.DeleteUniqueProject: "a delete shortens the list by exactly one" is proved
  only under distinct ids, because ids come from a millisecond clock and can repeat.
- DataContext.DeleteUniqueClient: the same precondition, for the same reason.
- The category drop-down's four options: the form stores whatever string it holds, and the
  guard only checks that it is non-empty.
