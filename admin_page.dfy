/** The admin panel: the tab bar with per-collection counts, the project and
    client forms with their guards, and the delete buttons. Form state lives in
    the panel; records are added to and removed from the shared store. */
module AdminPage {
  import opened Types
  import opened Sequences
  import opened DataContext

  datatype TabType = ProjectsTab | ClientsTab | ContactsTab | NewslettersTab

  /** One entry of the tab bar. */
  datatype Tab = Tab(id: TabType, caption: string, count: nat)

  /** The text fields of the project form; the image is held separately. */
  datatype ProjectForm = ProjectForm(name: string, description: string, category: string)

  /** The text fields of the client form. */
  datatype ClientForm = ClientForm(name: string, designation: string, description: string)

  const EmptyProjectForm: ProjectForm := ProjectForm("", "", "")
  const EmptyClientForm: ClientForm := ClientForm("", "", "")

  const FillInAll: string := "Please fill in all fields and upload an image"
  const ProjectAdded: string := "Project added successfully"
  const ClientAdded: string := "Client added successfully"
  const ProjectDeleted: string := "Project deleted"
  const ClientDeleted: string := "Client deleted"

  /** The guard of `handleAddProject`: every text field and the image are truthy. */
  predicate ProjectFormComplete(form: ProjectForm, image: Option<string>) {
    Filled(form.name) && Filled(form.description) && Filled(form.category) && Present(image)
  }

  /** The guard of `handleAddClient`. */
  predicate ClientFormComplete(form: ClientForm, image: Option<string>) {
    Filled(form.name) && Filled(form.designation) && Filled(form.description) && Present(image)
  }

  /** The fields `handleAddProject` passes to `addProject`: the form spread plus the image. */
  function ProjectFieldsOf(form: ProjectForm, image: string): ProjectFields
  {
    ProjectFields(form.name, form.description, form.category, image)
  }

  /** The fields `handleAddClient` passes to `addClient`. */
  function ClientFieldsOf(form: ClientForm, image: string): ClientFields
  {
    ClientFields(form.name, form.designation, form.description, image)
  }

  class Admin {
    const store: Store
    var activeTab: TabType
    var showProjectForm: bool
    var showClientForm: bool
    var projectForm: ProjectForm
    var projectImage: Option<string>
    var clientForm: ClientForm
    var clientImage: Option<string>

    /** The panel as it first renders: projects tab, both forms hidden and empty. */
    constructor (store: Store)
      ensures this.store == store
      ensures activeTab == ProjectsTab && !showProjectForm && !showClientForm
      ensures projectForm == EmptyProjectForm && projectImage == None
      ensures clientForm == EmptyClientForm && clientImage == None
    {
      this.store := store;
      activeTab := ProjectsTab;
      showProjectForm, showClientForm := false, false;
      projectForm, projectImage := EmptyProjectForm, None;
      clientForm, clientImage := EmptyClientForm, None;
    }

    /** The size of the collection a tab stands for. */
    function CollectionSize(tab: TabType): nat
      reads store
    {
      match tab
      case ProjectsTab => |store.projects|
      case ClientsTab => |store.clients|
      case ContactsTab => |store.contacts|
      case NewslettersTab => |store.newsletters|
    }

    /** The tab bar: one tab per collection, in that order, each showing its collection's size. */
    function Tabs(): (r: seq<Tab>)
      reads store
      ensures |r| == 4
      ensures r[0].id == ProjectsTab && r[1].id == ClientsTab && r[2].id == ContactsTab && r[3].id == NewslettersTab
      ensures forall i :: 0 <= i < |r| ==> r[i].count == CollectionSize(r[i].id)
    {
      [ Tab(ProjectsTab, "Projects", |store.projects|),
        Tab(ClientsTab, "Clients", |store.clients|),
        Tab(ContactsTab, "Contacts", |store.contacts|),
        Tab(NewslettersTab, "Newsletters", |store.newsletters|) ]
    }

    method SelectTab(tab: TabType)
      modifies this
      ensures activeTab == tab
      ensures showProjectForm == old(showProjectForm) && showClientForm == old(showClientForm)
      ensures projectForm == old(projectForm) && projectImage == old(projectImage)
      ensures clientForm == old(clientForm) && clientImage == old(clientImage)
    {
      activeTab := tab;
    }

    /** "Add Project" button: shows the form, keeping whatever it already holds. */
    method OpenProjectForm()
      modifies this
      ensures showProjectForm
      ensures activeTab == old(activeTab) && showClientForm == old(showClientForm)
      ensures projectForm == old(projectForm) && projectImage == old(projectImage)
      ensures clientForm == old(clientForm) && clientImage == old(clientImage)
    {
      showProjectForm := true;
    }

    /** The close icon and the Cancel button: hide the form without clearing it. */
    method CloseProjectForm()
      modifies this
      ensures !showProjectForm
      ensures activeTab == old(activeTab) && showClientForm == old(showClientForm)
      ensures projectForm == old(projectForm) && projectImage == old(projectImage)
      ensures clientForm == old(clientForm) && clientImage == old(clientImage)
    {
      showProjectForm := false;
    }

    /** The inputs' change handlers, which replace the form's text fields. */
    method EditProjectForm(form: ProjectForm)
      modifies this
      ensures projectForm == form
      ensures activeTab == old(activeTab) && showProjectForm == old(showProjectForm) && showClientForm == old(showClientForm)
      ensures projectImage == old(projectImage)
      ensures clientForm == old(clientForm) && clientImage == old(clientImage)
    {
      projectForm := form;
    }

    /** The file reader's result (a data URL) becomes the chosen image. */
    method SetProjectImage(image: string)
      modifies this
      ensures projectImage == Some(image)
      ensures activeTab == old(activeTab) && showProjectForm == old(showProjectForm) && showClientForm == old(showClientForm)
      ensures projectForm == old(projectForm)
      ensures clientForm == old(clientForm) && clientImage == old(clientImage)
    {
      projectImage := Some(image);
    }

    /** The remove button on the image preview. */
    method RemoveProjectImage()
      modifies this
      ensures projectImage == None
      ensures activeTab == old(activeTab) && showProjectForm == old(showProjectForm) && showClientForm == old(showClientForm)
      ensures projectForm == old(projectForm)
      ensures clientForm == old(clientForm) && clientImage == old(clientImage)
    {
      projectImage := None;
    }

    /** Submitting the project form. An incomplete form leaves everything as it was;
        a complete one adds exactly one project built from it, then clears and hides the form. */
    method HandleAddProject(id: string) returns (toast: Toast)
      requires store.Valid()
      modifies this, store
      ensures store.Valid()
      ensures toast.Success? <==> ProjectFormComplete(old(projectForm), old(projectImage))
      ensures !ProjectFormComplete(old(projectForm), old(projectImage)) ==>
        toast == Error(FillInAll) && unchanged(this) && unchanged(store)
      ensures ProjectFormComplete(old(projectForm), old(projectImage)) ==>
        && toast == Success(ProjectAdded)
        && store.projects == old(store.projects)
             + [Project(id, old(projectForm.name), old(projectForm.description), old(projectForm.category), old(projectImage).value)]
        && store.clients == old(store.clients) && store.contacts == old(store.contacts)
        && store.newsletters == old(store.newsletters)
        && projectForm == EmptyProjectForm && projectImage == None && !showProjectForm
        && activeTab == old(activeTab) && showClientForm == old(showClientForm)
        && clientForm == old(clientForm) && clientImage == old(clientImage)
    {
      if !ProjectFormComplete(projectForm, projectImage) {
        return Error(FillInAll);
      }
      store.AddProject(ProjectFieldsOf(projectForm, projectImage.value), id);
      toast := Success(ProjectAdded);
      projectForm := EmptyProjectForm;
      projectImage := None;
      showProjectForm := false;
    }

    /** A project row's delete button. */
    method HandleDeleteProject(id: string) returns (toast: Toast)
      requires store.Valid()
      modifies store
      ensures store.Valid()
      ensures toast == Success(ProjectDeleted)
      ensures store.projects == Filter(old(store.projects), ProjectIdIsNot(id))
      ensures store.clients == old(store.clients) && store.contacts == old(store.contacts)
      ensures store.newsletters == old(store.newsletters)
    {
      store.DeleteProject(id);
      toast := Success(ProjectDeleted);
    }

    /** "Add Client" button. */
    method OpenClientForm()
      modifies this
      ensures showClientForm
      ensures activeTab == old(activeTab) && showProjectForm == old(showProjectForm)
      ensures projectForm == old(projectForm) && projectImage == old(projectImage)
      ensures clientForm == old(clientForm) && clientImage == old(clientImage)
    {
      showClientForm := true;
    }

    /** The client form's close icon and Cancel button: hide without clearing. */
    method CloseClientForm()
      modifies this
      ensures !showClientForm
      ensures activeTab == old(activeTab) && showProjectForm == old(showProjectForm)
      ensures projectForm == old(projectForm) && projectImage == old(projectImage)
      ensures clientForm == old(clientForm) && clientImage == old(clientImage)
    {
      showClientForm := false;
    }

    method EditClientForm(form: ClientForm)
      modifies this
      ensures clientForm == form
      ensures activeTab == old(activeTab) && showProjectForm == old(showProjectForm) && showClientForm == old(showClientForm)
      ensures projectForm == old(projectForm) && projectImage == old(projectImage)
      ensures clientImage == old(clientImage)
    {
      clientForm := form;
    }

    method SetClientImage(image: string)
      modifies this
      ensures clientImage == Some(image)
      ensures activeTab == old(activeTab) && showProjectForm == old(showProjectForm) && showClientForm == old(showClientForm)
      ensures projectForm == old(projectForm) && projectImage == old(projectImage)
      ensures clientForm == old(clientForm)
    {
      clientImage := Some(image);
    }

    method RemoveClientImage()
      modifies this
      ensures clientImage == None
      ensures activeTab == old(activeTab) && showProjectForm == old(showProjectForm) && showClientForm == old(showClientForm)
      ensures projectForm == old(projectForm) && projectImage == old(projectImage)
      ensures clientForm == old(clientForm)
    {
      clientImage := None;
    }

    /** Submitting the client form, guarded like the project form. */
    method HandleAddClient(id: string) returns (toast: Toast)
      requires store.Valid()
      modifies this, store
      ensures store.Valid()
      ensures toast.Success? <==> ClientFormComplete(old(clientForm), old(clientImage))
      ensures !ClientFormComplete(old(clientForm), old(clientImage)) ==>
        toast == Error(FillInAll) && unchanged(this) && unchanged(store)
      ensures ClientFormComplete(old(clientForm), old(clientImage)) ==>
        && toast == Success(ClientAdded)
        && store.clients == old(store.clients)
             + [Client(id, old(clientForm.name), old(clientForm.designation), old(clientForm.description), old(clientImage).value)]
        && store.projects == old(store.projects) && store.contacts == old(store.contacts)
        && store.newsletters == old(store.newsletters)
        && clientForm == EmptyClientForm && clientImage == None && !showClientForm
        && activeTab == old(activeTab) && showProjectForm == old(showProjectForm)
        && projectForm == old(projectForm) && projectImage == old(projectImage)
    {
      if !ClientFormComplete(clientForm, clientImage) {
        return Error(FillInAll);
      }
      store.AddClient(ClientFieldsOf(clientForm, clientImage.value), id);
      toast := Success(ClientAdded);
      clientForm := EmptyClientForm;
      clientImage := None;
      showClientForm := false;
    }

    /** A client row's delete button. */
    method HandleDeleteClient(id: string) returns (toast: Toast)
      requires store.Valid()
      modifies store
      ensures store.Valid()
      ensures toast == Success(ClientDeleted)
      ensures store.clients == Filter(old(store.clients), ClientIdIsNot(id))
      ensures store.projects == old(store.projects) && store.contacts == old(store.contacts)
      ensures store.newsletters == old(store.newsletters)
    {
      store.DeleteClient(id);
      toast := Success(ClientDeleted);
    }
  }
}
