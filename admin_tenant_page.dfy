/** The tenant list page (`AdminTenantPage`): its handlers drive the modal
    flags, the pending delete id and the tenant being edited, and call into the
    tenant store; its render picks spinner, error block or table. */
module AdminTenantPage {
  import opened Api
  import opened TenantStore
  import Paths
  import ListView
  import TenantModal

  function TenantId(t: Tenant): int { t.id }

  function TenantName(t: Tenant): string { t.name }

  /** The name the delete dialog shows for the pending id. */
  function DeleteItemName(tenants: seq<Tenant>, pending: Option<int>): string {
    ListView.ItemName(tenants, TenantId, TenantName, pending, "tenant")
  }

  class Page {
    const store: Store
    var isModalOpen: bool
    var isDeleteModalOpen: bool
    var tenantToDeleteId: Option<int>
    /** The `initialData` handed to the tenant modal. */
    var currentTenant: Option<TenantDraft>

    constructor (store: Store)
      ensures this.store == store
      ensures !isModalOpen && !isDeleteModalOpen && tenantToDeleteId == None && currentTenant == None
    {
      this.store := store;
      isModalOpen, isDeleteModalOpen := false, false;
      tenantToDeleteId, currentTenant := None, None;
    }

    /** The mount effect: `fetchTenants()`, not awaited. Its completion is the
        store's `CompleteFetch`. */
    method Mount()
      modifies store
      ensures store.State() == Snapshot(old(store.tenants), true, None)
      ensures store.requests == old(store.requests) + [HttpGet(BasePath)]
      ensures store.toasts == old(store.toasts)
      ensures store.sets == old(store.sets) + [store.State()]
    {
      store.BeginFetch();
    }

    /** `handleCreate`: open the modal on a blank form. */
    method HandleCreate()
      modifies this
      ensures currentTenant == None && isModalOpen
      ensures isDeleteModalOpen == old(isDeleteModalOpen) && tenantToDeleteId == old(tenantToDeleteId)
    {
      currentTenant := None;
      isModalOpen := true;
    }

    /** `handleEdit`: open the modal on the first tenant with this id, if
        there is one; otherwise do nothing. */
    method HandleEdit(id: int)
      modifies this
      ensures var k := ListView.FindFirst(store.tenants, TenantId, Some(id));
        if k.Some? then currentTenant == Some(DraftOf(store.tenants[k.value])) && isModalOpen
        else currentTenant == old(currentTenant) && isModalOpen == old(isModalOpen)
      ensures isDeleteModalOpen == old(isDeleteModalOpen) && tenantToDeleteId == old(tenantToDeleteId)
    {
      var k := ListView.FindFirst(store.tenants, TenantId, Some(id));
      if k.Some? {
        currentTenant := Some(DraftOf(store.tenants[k.value]));
        isModalOpen := true;
      }
    }

    /** `handleDelete`: remember the id and ask for confirmation; the store is
        not touched. */
    method HandleDelete(id: int)
      modifies this
      ensures tenantToDeleteId == Some(id) && isDeleteModalOpen
      ensures isModalOpen == old(isModalOpen) && currentTenant == old(currentTenant)
    {
      tenantToDeleteId := Some(id);
      isDeleteModalOpen := true;
    }

    /** `confirmDelete`: with a pending id, delete that tenant, then close the
        dialog and forget the id; with none, nothing happens. */
    method ConfirmDelete(response: Response<()>)
      modifies this, store
      ensures old(tenantToDeleteId).None? ==> unchanged(this) && unchanged(store)
      ensures old(tenantToDeleteId).Some? ==>
        store.Settled(HttpDelete(Paths.ItemPath(BasePath, old(tenantToDeleteId).value)), response,
                      Deleted, DeleteFallback) &&
        !isDeleteModalOpen && tenantToDeleteId == None
      ensures isModalOpen == old(isModalOpen) && currentTenant == old(currentTenant)
    {
      if tenantToDeleteId.Some? {
        store.Delete(tenantToDeleteId.value, response);
        isDeleteModalOpen := false;
        tenantToDeleteId := None;
      }
    }

    /** `handleSave`: a truthy (non-zero) id updates that tenant with the whole
        record; a zero id creates one from the record without its id. The modal
        closes either way. */
    method HandleSave(tenantData: TenantDraft, response: Response<()>)
      modifies this, store
      ensures tenantData.id != 0 ==>
        store.Settled(HttpPut(Paths.ItemPath(BasePath, tenantData.id), tenantData), response,
                      Updated, UpdateFallback)
      ensures tenantData.id == 0 ==>
        store.Settled(HttpPost(BasePath, WithoutId(tenantData)), response, Created, CreateFallback)
      ensures !isModalOpen
      ensures isDeleteModalOpen == old(isDeleteModalOpen) && tenantToDeleteId == old(tenantToDeleteId)
      ensures currentTenant == old(currentTenant)
    {
      if tenantData.id != 0 {
        store.Update(tenantData.id, tenantData, response);
      } else {
        store.Create(WithoutId(tenantData), response);
      }
      isModalOpen := false;
    }

    /** The modal's `onClose`: only the modal flag changes. */
    method CloseModal()
      modifies this
      ensures !isModalOpen && currentTenant == old(currentTenant)
      ensures isDeleteModalOpen == old(isDeleteModalOpen) && tenantToDeleteId == old(tenantToDeleteId)
    {
      isModalOpen := false;
    }

    /** The delete dialog's `onClose`: the dialog closes but the pending id
        stays as it was. */
    method CloseDeleteDialog()
      modifies this
      ensures !isDeleteModalOpen && tenantToDeleteId == old(tenantToDeleteId)
      ensures isModalOpen == old(isModalOpen) && currentTenant == old(currentTenant)
    {
      isDeleteModalOpen := false;
    }

    /** The page as rendered from the store and the page's own flags. */
    function Render(): (s: ListView.Screen<Tenant, Option<TenantDraft>>)
      reads this, store
      ensures s.Table? ==> (s.modal.Some? <==> isModalOpen) && (s.deleteDialog.Some? <==> isDeleteModalOpen)
      ensures s.Table? && isModalOpen ==> s.modal.value == currentTenant
      ensures s.Table? && isDeleteModalOpen ==>
        s.deleteDialog.value == DeleteItemName(store.tenants, tenantToDeleteId)
    {
      ListView.Layout(store.loading, store.error, store.tenants,
                      if isModalOpen then Some(currentTenant) else None,
                      if isDeleteModalOpen then Some(DeleteItemName(store.tenants, tenantToDeleteId)) else None)
    }
  }

  /** A fetch that threw always leaves the page on its error block, showing
      the server's message, else the exception's, else the fixed text. */
  lemma ThrownFetchShowsError(responseMessage: Option<string>, exceptionMessage: Option<string>,
                              rows: seq<Tenant>, modal: Option<Option<TenantDraft>>, dialog: Option<string>)
    ensures var s := ListView.Layout(false, FailureText(Response<seq<Tenant>>.Threw(responseMessage, exceptionMessage),
                                                        FetchFallback), rows, modal, dialog);
      s.ErrorBlock? && s.message == CaughtMessage(responseMessage, exceptionMessage, FetchFallback)
  {
  }

  /** A refusal whose message is missing or empty leaves no error text, so
      once loading ends the page shows the table again, as if nothing had
      failed. */
  lemma SilentRefusalShowsTable(message: Option<string>, rows: seq<Tenant>,
                                modal: Option<Option<TenantDraft>>, dialog: Option<string>)
    requires message.None? || message == Some("")
    ensures ListView.Layout(false, FailureText(Response<seq<Tenant>>.Refused(message), FetchFallback),
                            rows, modal, dialog).Table?
  {
  }

  /** A failed DELETE of tenant 7 whose exception carries no message. */
  method DeleteSevenUnreachable() returns (error: Option<string>, requests: seq<TenantRequest>, toasts: seq<Toast>)
    ensures error == Some("Failed to delete tenant")
    ensures requests == [HttpDelete("/api/v1/tenants/7")]
    ensures toasts == [ErrorToast(Some("Failed to delete tenant"))]
  {
    var store := new Store();
    store.Delete(7, Threw(None, None));
    assert Paths.ItemPath(BasePath, 7) == "/api/v1/tenants/7";
    error, requests, toasts := store.error, store.requests, store.toasts;
  }

  /** A successful create of a new tenant: the page closes its modal, the
      store has POSTed the tenant without id, begun one GET, and raised one
      success toast; the list is refreshed only when that GET completes. */
  method CreateAcme() returns (requests: seq<TenantRequest>, toasts: seq<Toast>,
                                    loading: bool, tenants: seq<Tenant>, modalOpen: bool)
    ensures requests == [HttpPost(BasePath, NewTenant("Acme", "a@acme.io", "acme.io", "acme", "+1", true)),
                         HttpGet(BasePath)]
    ensures toasts == [SuccessToast("Tenant created successfully!")]
    ensures loading && tenants == [] && !modalOpen
  {
    var store := new Store();
    var page := new Page(store);
    page.HandleCreate();
    page.HandleSave(TenantDraft(0, "Acme", "a@acme.io", "acme.io", "acme", "+1", true), Succeeded(()));
    requests, toasts, loading, tenants, modalOpen :=
      store.requests, store.toasts, store.loading, store.tenants, page.isModalOpen;
  }

  /** Editing a listed tenant end to end: the page finds it, the form starts
      from it and one field is typed over. If the browser lets the form
      through, the record is PUT to that tenant's path with only that field
      changed; otherwise nothing follows the first GET. */
  method RenameListed(t: Tenant, newName: string) returns (requests: seq<TenantRequest>, heading: string)
    requires t.id != 0
    ensures TenantModal.Submittable(DraftOf(t).(name := newName)) ==>
      requests == [HttpGet(BasePath), HttpPut(Paths.ItemPath(BasePath, t.id), DraftOf(t).(name := newName)),
                   HttpGet(BasePath)]
    ensures !TenantModal.Submittable(DraftOf(t).(name := newName)) ==> requests == [HttpGet(BasePath)]
    ensures newName == "" ==> requests == [HttpGet(BasePath)]
    ensures heading == "Edit Tenant"
  {
    var store := new Store();
    var page := new Page(store);
    store.Fetch(Succeeded([t]));
    page.HandleEdit(t.id);
    var modal := new TenantModal.Modal();
    modal.Reset(page.currentTenant);
    var view := modal.Render(page.isModalOpen, page.currentTenant);
    heading := view.value.heading;
    modal.HandleChange(TenantModal.Typed(TenantModal.Name, newName));
    assert modal.tenantData == DraftOf(t).(name := newName);
    var saved := modal.HandleSubmit();
    if saved.Some? {
      page.HandleSave(saved.value, Succeeded(()));
    }
    requests := store.requests;
  }

  /** Two fetches with the same answer leave the same list, with no error. */
  method FetchTwice(list: seq<Tenant>) returns (first: seq<Tenant>, second: seq<Tenant>, error: Option<string>)
    ensures first == list && second == list && error == None
  {
    var store := new Store();
    store.Fetch(Succeeded(list));
    first := store.tenants;
    store.Fetch(Succeeded(list));
    second, error := store.tenants, store.error;
  }
}
