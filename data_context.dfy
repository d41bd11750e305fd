/** The application data store: four ordered collections (projects, clients,
    contact submissions, newsletter subscriptions) and the six operations that
    change them. Ids and timestamps come from the caller's clock and are
    parameters here. */
module DataContext {
  import opened Types
  import opened Sequences

  /** The testimonial text every seeded client shares. */
  const Lorem: string := "Lorem ipsum dolor sit amet consectetur adipiscing elit, sed do eiusmod tempor incididunt ut labore et dolore magna aliqua. Ut enim ad minim veniam."

  /** The projects the store starts with. Images stand for the bundled asset URLs. */
  const DefaultProjects: seq<Project> := [
    Project("1", "Skyline Residences, Manhattan", "Consultation", "Consultation", "@/assets/project-1.jpg"),
    Project("2", "Ocean View Towers, Miami", "Design", "Design", "@/assets/project-2.jpg"),
    Project("3", "Green Valley Estate, Austin", "Marketing & Design", "Marketing & Design", "@/assets/project-3.jpg"),
    Project("4", "Urban Lofts, Seattle", "Consultation & Marketing", "Consultation & Marketing", "@/assets/project-4.jpg"),
    Project("5", "Sunset Hills, Los Angeles", "Consultation", "Consultation", "@/assets/project-5.jpg")
  ]

  /** The clients the store starts with. */
  const DefaultClients: seq<Client> := [
    Client("1", "Rowhan Smith", "CEO, Foreclosure", Lorem, "@/assets/client-1.jpg"),
    Client("2", "Shipra Kayak", "Brand Designer", Lorem, "@/assets/client-2.jpg"),
    Client("3", "John Lepore", "CEO, Foreclosure", Lorem, "@/assets/client-3.jpg"),
    Client("4", "Marry Freeman", "Marketing Manager at Mixit", Lorem, "@/assets/client-4.jpg"),
    Client("5", "Lucy Chen", "Sales Rep at Alibaba", Lorem, "@/assets/client-5.jpg")
  ]

  function ProjectId(p: Project): string { p.id }
  function ClientId(c: Client): string { c.id }
  function EmailOf(n: NewsletterSubscription): string { n.email }

  /** The `filter` callback of `deleteProject`: keep projects whose id is not `id`. */
  function ProjectIdIsNot(id: string): Project -> bool { (p: Project) => p.id != id }

  /** The `filter` callback of `deleteClient`. */
  function ClientIdIsNot(id: string): Client -> bool { (c: Client) => c.id != id }

  /** The `find` callback of `addNewsletter`. */
  function HasEmail(email: string): NewsletterSubscription -> bool { (n: NewsletterSubscription) => n.email == email }

  /** The record `addProject` builds: the given fields plus the supplied id. */
  function NewProject(fields: ProjectFields, id: string): Project {
    Project(id, fields.name, fields.description, fields.category, fields.image)
  }

  /** The record `addClient` builds. */
  function NewClient(fields: ClientFields, id: string): Client {
    Client(id, fields.name, fields.designation, fields.description, fields.image)
  }

  /** The record `addContact` builds. */
  function NewContact(fields: ContactFields, id: string, createdAt: string): ContactSubmission {
    ContactSubmission(id, fields.fullName, fields.email, fields.mobile, fields.city, createdAt)
  }

  /** Some subscription in `ns` has address `email`. */
  predicate Subscribed(ns: seq<NewsletterSubscription>, email: string) {
    exists i :: 0 <= i < |ns| && ns[i].email == email
  }

  /** The newsletter list after `addNewsletter(email)`: unchanged when the address
      is already subscribed, otherwise one new record at the end. */
  function Subscribe(ns: seq<NewsletterSubscription>, email: string, id: string, createdAt: string): seq<NewsletterSubscription> {
    if Subscribed(ns, email) then ns else ns + [NewsletterSubscription(id, email, createdAt)]
  }

  /** The number of subscriptions with address `email`. */
  function EmailCount(ns: seq<NewsletterSubscription>, email: string): nat {
    |Filter(ns, HasEmail(email))|
  }

  class Store {
    var projects: seq<Project>
    var clients: seq<Client>
    var contacts: seq<ContactSubmission>
    var newsletters: seq<NewsletterSubscription>

    /** The store's invariant: no address is subscribed twice. */
    ghost predicate Valid()
      reads this
    {
      Distinct(newsletters, EmailOf)
    }

    /** Contacts and newsletters are append-only: the old list is a prefix of the new one. */
    twostate predicate OnlyGrew()
      reads this
    {
      old(contacts) <= contacts && old(newsletters) <= newsletters
    }

    /** The store as it is first provided: seeded projects and clients, nothing else. */
    constructor ()
      ensures Valid()
      ensures projects == DefaultProjects && clients == DefaultClients
      ensures contacts == [] && newsletters == []
    {
      projects := DefaultProjects;
      clients := DefaultClients;
      contacts := [];
      newsletters := [];
    }

    method AddProject(project: ProjectFields, id: string)
      requires Valid()
      modifies this
      ensures Valid() && OnlyGrew()
      ensures projects == old(projects) + [NewProject(project, id)]
      ensures clients == old(clients) && contacts == old(contacts) && newsletters == old(newsletters)
    {
      projects := projects + [NewProject(project, id)];
    }

    method AddClient(client: ClientFields, id: string)
      requires Valid()
      modifies this
      ensures Valid() && OnlyGrew()
      ensures clients == old(clients) + [NewClient(client, id)]
      ensures projects == old(projects) && contacts == old(contacts) && newsletters == old(newsletters)
    {
      clients := clients + [NewClient(client, id)];
    }

    method AddContact(contact: ContactFields, id: string, createdAt: string)
      requires Valid()
      modifies this
      ensures Valid() && OnlyGrew()
      ensures contacts == old(contacts) + [NewContact(contact, id, createdAt)]
      ensures projects == old(projects) && clients == old(clients) && newsletters == old(newsletters)
    {
      contacts := contacts + [NewContact(contact, id, createdAt)];
    }

    /** Looks the address up with `find`; appends a subscription only when none has it. */
    method AddNewsletter(email: string, id: string, createdAt: string)
      requires Valid()
      modifies this
      ensures Valid() && OnlyGrew()
      ensures newsletters == Subscribe(old(newsletters), email, id, createdAt)
      ensures projects == old(projects) && clients == old(clients) && contacts == old(contacts)
    {
      var existing := Find(newsletters, HasEmail(email));
      if existing.None? {
        newsletters := newsletters + [NewsletterSubscription(id, email, createdAt)];
      } else {
        var i :| 0 <= i < |newsletters| && newsletters[i] == existing.value && HasEmail(email)(newsletters[i]);
        assert newsletters[i].email == email;
      }
      SubscribeKeepsEmailsDistinct(old(newsletters), email, id, createdAt);
    }

    method DeleteProject(id: string)
      requires Valid()
      modifies this
      ensures Valid() && OnlyGrew()
      ensures projects == Filter(old(projects), ProjectIdIsNot(id))
      ensures forall i :: 0 <= i < |projects| ==> projects[i].id != id
      ensures IsSubsequence(projects, old(projects))
      ensures clients == old(clients) && contacts == old(contacts) && newsletters == old(newsletters)
    {
      FilterIsSubsequence(projects, ProjectIdIsNot(id));
      projects := Filter(projects, ProjectIdIsNot(id));
    }

    method DeleteClient(id: string)
      requires Valid()
      modifies this
      ensures Valid() && OnlyGrew()
      ensures clients == Filter(old(clients), ClientIdIsNot(id))
      ensures forall i :: 0 <= i < |clients| ==> clients[i].id != id
      ensures IsSubsequence(clients, old(clients))
      ensures projects == old(projects) && contacts == old(contacts) && newsletters == old(newsletters)
    {
      FilterIsSubsequence(clients, ClientIdIsNot(id));
      clients := Filter(clients, ClientIdIsNot(id));
    }
  }

  /** The seeded ids are "1" to "5", in order, in both seeded collections. */
  lemma DefaultIds()
    ensures |DefaultProjects| == 5 && |DefaultClients| == 5
    ensures forall i :: 0 <= i < 5 ==> DefaultProjects[i].id == ["12345"[i]] && DefaultClients[i].id == ["12345"[i]]
    ensures Distinct(DefaultProjects, ProjectId) && Distinct(DefaultClients, ClientId)
  {
  }

  /** After subscribing, the address is subscribed. The first two conjuncts only
      unfold `Subscribe` (present: unchanged; absent: one record appended at the end);
      they are stated here so that callers can use them without unfolding. */
  lemma SubscribeAppendsOrKeeps(ns: seq<NewsletterSubscription>, email: string, id: string, createdAt: string)
    ensures var r := Subscribe(ns, email, id, createdAt);
      && (Subscribed(ns, email) ==> r == ns)
      && (!Subscribed(ns, email) ==> r == ns + [NewsletterSubscription(id, email, createdAt)])
      && Subscribed(r, email)
  {
    if !Subscribed(ns, email) {
      var r := Subscribe(ns, email, id, createdAt);
      assert r[|ns|].email == email;
    }
  }

  /** Subscribing the same address twice is subscribing it once. */
  lemma SubscribeIdempotent(ns: seq<NewsletterSubscription>, email: string, id1: string, at1: string, id2: string, at2: string)
    ensures Subscribe(Subscribe(ns, email, id1, at1), email, id2, at2) == Subscribe(ns, email, id1, at1)
  {
    SubscribeAppendsOrKeeps(ns, email, id1, at1);
  }

  /** Subscribing keeps every address in the list distinct. */
  lemma SubscribeKeepsEmailsDistinct(ns: seq<NewsletterSubscription>, email: string, id: string, createdAt: string)
    requires Distinct(ns, EmailOf)
    ensures Distinct(Subscribe(ns, email, id, createdAt), EmailOf)
  {
  }

  /** In a list with distinct addresses, a subscribed address has exactly one record. */
  lemma SubscribedOnce(ns: seq<NewsletterSubscription>, email: string)
    requires Distinct(ns, EmailOf)
    ensures EmailCount(ns, email) == if Subscribed(ns, email) then 1 else 0
  {
    DistinctAtMostOne(ns, EmailOf, HasEmail(email), email);
    if Subscribed(ns, email) {
      var i :| 0 <= i < |ns| && ns[i].email == email;
      assert HasEmail(email)(ns[i]);
      assert ns[i] in Filter(ns, HasEmail(email));
    } else {
      forall i | 0 <= i < |ns| ensures !HasEmail(email)(ns[i]) { }
      FilterKeepsNone(ns, HasEmail(email));
    }
  }

  /** After one or two subscriptions with the same address (starting from distinct
      addresses), the list holds exactly one record with that address. */
  lemma SubscribeTwiceLeavesOne(ns: seq<NewsletterSubscription>, email: string, id1: string, at1: string, id2: string, at2: string)
    requires Distinct(ns, EmailOf)
    ensures EmailCount(Subscribe(ns, email, id1, at1), email) == 1
    ensures EmailCount(Subscribe(Subscribe(ns, email, id1, at1), email, id2, at2), email) == 1
  {
    var once := Subscribe(ns, email, id1, at1);
    SubscribeAppendsOrKeeps(ns, email, id1, at1);
    SubscribeKeepsEmailsDistinct(ns, email, id1, at1);
    SubscribedOnce(once, email);
    SubscribeIdempotent(ns, email, id1, at1, id2, at2);
  }

  /** Deleting by id after adding a record with a fresh id restores the collection. */
  lemma DeleteUndoesAddProject(ps: seq<Project>, fields: ProjectFields, id: string)
    requires forall i :: 0 <= i < |ps| ==> ps[i].id != id
    ensures Filter(ps + [NewProject(fields, id)], ProjectIdIsNot(id)) == ps
  {
    FilterConcat(ps, [NewProject(fields, id)], ProjectIdIsNot(id));
    FilterKeepsAll(ps, ProjectIdIsNot(id));
    assert [NewProject(fields, id)][1..] == [];
  }

  /** The same round trip for clients. */
  lemma DeleteUndoesAddClient(cs: seq<Client>, fields: ClientFields, id: string)
    requires forall i :: 0 <= i < |cs| ==> cs[i].id != id
    ensures Filter(cs + [NewClient(fields, id)], ClientIdIsNot(id)) == cs
  {
    FilterConcat(cs, [NewClient(fields, id)], ClientIdIsNot(id));
    FilterKeepsAll(cs, ClientIdIsNot(id));
    assert [NewClient(fields, id)][1..] == [];
  }

  /** Deleting an id no project carries changes nothing. */
  lemma DeleteAbsentProject(ps: seq<Project>, id: string)
    requires forall i :: 0 <= i < |ps| ==> ps[i].id != id
    ensures Filter(ps, ProjectIdIsNot(id)) == ps
  {
    FilterKeepsAll(ps, ProjectIdIsNot(id));
  }

  /** Deleting an id no client carries changes nothing. */
  lemma DeleteAbsentClient(cs: seq<Client>, id: string)
    requires forall i :: 0 <= i < |cs| ==> cs[i].id != id
    ensures Filter(cs, ClientIdIsNot(id)) == cs
  {
    FilterKeepsAll(cs, ClientIdIsNot(id));
  }

  /** With distinct ids, deleting the id of the project at `i` removes exactly that project. */
  lemma DeleteUniqueProject(ps: seq<Project>, i: nat)
    requires Distinct(ps, ProjectId) && i < |ps|
    ensures Filter(ps, ProjectIdIsNot(ps[i].id)) == ps[..i] + ps[i + 1..]
  {
    var keep := ProjectIdIsNot(ps[i].id);
    forall j | 0 <= j < |ps| && j != i ensures keep(ps[j]) {
      if j < i { assert ProjectId(ps[j]) != ProjectId(ps[i]); } else { assert ProjectId(ps[i]) != ProjectId(ps[j]); }
    }
    FilterDropsOne(ps, keep, i);
  }

  /** With distinct ids, deleting the id of the client at `i` removes exactly that client. */
  lemma DeleteUniqueClient(cs: seq<Client>, i: nat)
    requires Distinct(cs, ClientId) && i < |cs|
    ensures Filter(cs, ClientIdIsNot(cs[i].id)) == cs[..i] + cs[i + 1..]
  {
    var keep := ClientIdIsNot(cs[i].id);
    forall j | 0 <= j < |cs| && j != i ensures keep(cs[j]) {
      if j < i { assert ClientId(cs[j]) != ClientId(cs[i]); } else { assert ClientId(cs[i]) != ClientId(cs[j]); }
    }
    FilterDropsOne(cs, keep, i);
  }

  /** Deleting a project keeps project ids distinct. */
  lemma DeleteKeepsProjectIdsDistinct(ps: seq<Project>, id: string)
    requires Distinct(ps, ProjectId)
    ensures Distinct(Filter(ps, ProjectIdIsNot(id)), ProjectId)
  {
    FilterKeepsDistinct(ps, ProjectId, ProjectIdIsNot(id));
  }

  /** Deleting a client keeps client ids distinct. */
  lemma DeleteKeepsClientIdsDistinct(cs: seq<Client>, id: string)
    requires Distinct(cs, ClientId)
    ensures Distinct(Filter(cs, ClientIdIsNot(id)), ClientId)
  {
    FilterKeepsDistinct(cs, ClientId, ClientIdIsNot(id));
  }

  /** Adding a project with a fresh id keeps project ids distinct. */
  lemma AddFreshProjectKeepsIdsDistinct(ps: seq<Project>, fields: ProjectFields, id: string)
    requires Distinct(ps, ProjectId)
    requires forall i :: 0 <= i < |ps| ==> ps[i].id != id
    ensures Distinct(ps + [NewProject(fields, id)], ProjectId)
  {
  }

  /** Adding a client with a fresh id keeps client ids distinct. */
  lemma AddFreshClientKeepsIdsDistinct(cs: seq<Client>, fields: ClientFields, id: string)
    requires Distinct(cs, ClientId)
    requires forall i :: 0 <= i < |cs| ==> cs[i].id != id
    ensures Distinct(cs + [NewClient(fields, id)], ClientId)
  {
  }
}
