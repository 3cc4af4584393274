/** The tenant store (`useTenantStore`): the tenant list with its `loading` and
    `error` flags, and the four operations that drive them from the outcome of
    one HTTP call each. */
module TenantStore {
  import opened Api
  import Paths

  /** A tenant as the server returns it. */
  datatype Tenant = Tenant(
    id: int,
    name: string,
    email: string,
    domain: string,
    subdomain: string,
    phoneNumber: string,
    createdAt: string,
    updatedAt: string,
    active: bool)

  /** A tenant without its timestamps: the tenant form's record, and what the
      list page sends as the body of an update. */
  datatype TenantDraft = TenantDraft(
    id: int,
    name: string,
    email: string,
    domain: string,
    subdomain: string,
    phoneNumber: string,
    active: bool)

  /** A tenant without id and timestamps: the body of a create. */
  datatype NewTenant = NewTenant(
    name: string,
    email: string,
    domain: string,
    subdomain: string,
    phoneNumber: string,
    active: bool)

  function DraftOf(t: Tenant): TenantDraft {
    TenantDraft(t.id, t.name, t.email, t.domain, t.subdomain, t.phoneNumber, t.active)
  }

  /** `const { id, ...rest } = draft`. */
  function WithoutId(d: TenantDraft): NewTenant {
    NewTenant(d.name, d.email, d.domain, d.subdomain, d.phoneNumber, d.active)
  }

  type TenantRequest = Request<NewTenant, TenantDraft>

  const BasePath := "/api/v1/tenants"

  const FetchFallback := "Failed to fetch tenants"
  const CreateFallback := "Failed to create tenant"
  const UpdateFallback := "Failed to update tenant"
  const DeleteFallback := "Failed to delete tenant"

  const Created := "Tenant created successfully!"
  const Updated := "Tenant updated successfully!"
  const Deleted := "Tenant deleted successfully!"

  /** The store's state as one `set(...)` call leaves it. */
  datatype Snapshot = Snapshot(tenants: seq<Tenant>, loading: bool, error: Option<string>)

  class Store {
    var tenants: seq<Tenant>
    var loading: bool
    var error: Option<string>
    /** Toasts raised so far, oldest first. */
    var toasts: seq<Toast>
    /** Requests issued so far, oldest first. */
    var requests: seq<TenantRequest>
    /** The state after each `set(...)` call, oldest first: what subscribers see. */
    ghost var sets: seq<Snapshot>

    function State(): Snapshot
      reads this
    {
      Snapshot(tenants, loading, error)
    }

    constructor ()
      ensures State() == Snapshot([], false, None)
      ensures toasts == [] && requests == [] && sets == []
    {
      tenants, loading, error := [], false, None;
      toasts, requests, sets := [], [], [];
    }

    /** Every operation opens with `set({ loading: true, error: null })`. */
    method Enter()
      modifies this
      ensures State() == Snapshot(old(tenants), true, None)
      ensures toasts == old(toasts) && requests == old(requests)
      ensures sets == old(sets) + [State()]
    {
      loading, error := true, None;
      sets := sets + [State()];
    }

    /** The synchronous part of `fetchTenants`: the entry `set` and the GET. */
    method BeginFetch()
      modifies this
      ensures State() == Snapshot(old(tenants), true, None)
      ensures toasts == old(toasts)
      ensures requests == old(requests) + [HttpGet(BasePath)]
      ensures sets == old(sets) + [State()]
    {
      Enter();
      requests := requests + [HttpGet(BasePath)];
    }

    /** The rest of `fetchTenants`, once the GET has an outcome. */
    method CompleteFetch(response: Response<seq<Tenant>>)
      modifies this
      ensures !loading && requests == old(requests)
      ensures sets == old(sets) + [State()]
      ensures response.Succeeded? ==>
        tenants == response.data && error == old(error) && toasts == old(toasts)
      ensures !response.Succeeded? ==>
        tenants == old(tenants) && error == FailureText(response, FetchFallback) &&
        toasts == old(toasts) + [ErrorToast(error)]
    {
      if response.Succeeded? {
        tenants, loading := response.data, false;
      } else {
        error, loading := FailureText(response, FetchFallback), false;
        toasts := toasts + [ErrorToast(error)];
      }
      sets := sets + [State()];
    }

    /** `fetchTenants` run to completion. */
    method Fetch(response: Response<seq<Tenant>>)
      modifies this
      ensures !loading
      ensures requests == old(requests) + [HttpGet(BasePath)]
      ensures sets == old(sets) + [Snapshot(old(tenants), true, None), State()]
      ensures response.Succeeded? ==>
        tenants == response.data && error == None && toasts == old(toasts)
      ensures !response.Succeeded? ==>
        tenants == old(tenants) && error == FailureText(response, FetchFallback) &&
        toasts == old(toasts) + [ErrorToast(error)]
    {
      BeginFetch();
      CompleteFetch(response);
    }

    /** How a create, update or delete that issued `request` leaves the store:
        it never touches the list; on success it has begun exactly one refetch
        (so `loading` is still set) and raised `successText`; on failure it
        stores the error, raises it, and refetches nothing. */
    twostate predicate Settled(request: TenantRequest, response: Response<()>,
                               successText: string, fallback: string)
      reads this
    {
      tenants == old(tenants) &&
      |sets| == |old(sets)| + 2 &&
      sets[..|old(sets)| + 1] == old(sets) + [Snapshot(old(tenants), true, None)] &&
      sets[|old(sets)| + 1] == State() &&
      if response.Succeeded? then
        loading && error == None &&
        requests == old(requests) + [request, HttpGet(BasePath)] &&
        toasts == old(toasts) + [SuccessToast(successText)]
      else
        !loading && error == FailureText(response, fallback) &&
        requests == old(requests) + [request] &&
        toasts == old(toasts) + [ErrorToast(error)]
    }

    method Mutate(request: TenantRequest, response: Response<()>, successText: string, fallback: string)
      modifies this
      ensures Settled(request, response, successText, fallback)
    {
      Enter();
      requests := requests + [request];
      if response.Succeeded? {
        BeginFetch();
        toasts := toasts + [SuccessToast(successText)];
      } else {
        error, loading := FailureText(response, fallback), false;
        sets := sets + [State()];
        toasts := toasts + [ErrorToast(error)];
      }
    }

    /** `createTenant`: POST the new tenant to the collection. */
    method Create(newTenant: NewTenant, response: Response<()>)
      modifies this
      ensures Settled(HttpPost(BasePath, newTenant), response, Created, CreateFallback)
    {
      Mutate(HttpPost(BasePath, newTenant), response, Created, CreateFallback);
    }

    /** `updateTenant`: PUT the changes to the tenant's own path. */
    method Update(id: int, updatedTenant: TenantDraft, response: Response<()>)
      modifies this
      ensures Settled(HttpPut(Paths.ItemPath(BasePath, id), updatedTenant), response, Updated, UpdateFallback)
    {
      Mutate(HttpPut(Paths.ItemPath(BasePath, id), updatedTenant), response, Updated, UpdateFallback);
    }

    /** `deleteTenant`: DELETE the tenant's own path. */
    method Delete(id: int, response: Response<()>)
      modifies this
      ensures Settled(HttpDelete(Paths.ItemPath(BasePath, id)), response, Deleted, DeleteFallback)
    {
      Mutate(HttpDelete(Paths.ItemPath(BasePath, id)), response, Deleted, DeleteFallback);
    }
  }
}
