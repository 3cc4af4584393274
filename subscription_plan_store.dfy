/** The subscription-plan store (`useSubscriptionPlanStore`): the plan list
    with its `loading` and `error` flags, and the four operations that drive
    them from the outcome of one HTTP call each. */
module SubscriptionPlanStore {
  import opened Api
  import Paths

  /** A subscription plan as the server returns it. Prices and limits are
      JavaScript numbers, so they are not restricted to integers. */
  datatype SubscriptionPlan = SubscriptionPlan(
    id: int,
    name: string,
    priceMonthly: real,
    priceYearly: real,
    maxUsers: real,
    maxDevices: real,
    description: string,
    createdAt: string,
    updatedAt: Option<string>)

  /** `SaveableSubscriptionPlan`: the plan form's record, whose id is absent
      for a new plan; the list page sends it as the body of an update. */
  datatype SaveablePlan = SaveablePlan(
    id: Option<int>,
    name: string,
    priceMonthly: real,
    priceYearly: real,
    maxUsers: real,
    maxDevices: real,
    description: string)

  /** A plan without id and timestamps: the body of a create. */
  datatype NewPlan = NewPlan(
    name: string,
    priceMonthly: real,
    priceYearly: real,
    maxUsers: real,
    maxDevices: real,
    description: string)

  function SaveableOf(p: SubscriptionPlan): SaveablePlan {
    SaveablePlan(Some(p.id), p.name, p.priceMonthly, p.priceYearly, p.maxUsers, p.maxDevices, p.description)
  }

  /** `const { id, ...rest } = plan`. */
  function WithoutId(d: SaveablePlan): NewPlan {
    NewPlan(d.name, d.priceMonthly, d.priceYearly, d.maxUsers, d.maxDevices, d.description)
  }

  type PlanRequest = Request<NewPlan, SaveablePlan>

  const BasePath := "/api/v1/subscription-plans"

  const FetchFallback := "Failed to fetch subscription plans"
  const CreateFallback := "Failed to create subscription plan"
  const UpdateFallback := "Failed to update subscription plan"
  const DeleteFallback := "Failed to delete subscription plan"

  const Created := "Subscription plan created successfully!"
  const Updated := "Subscription plan updated successfully!"
  const Deleted := "Subscription plan deleted successfully!"

  /** The store's state as one `set(...)` call leaves it. */
  datatype Snapshot = Snapshot(subscriptionPlans: seq<SubscriptionPlan>, loading: bool, error: Option<string>)

  class Store {
    var subscriptionPlans: seq<SubscriptionPlan>
    var loading: bool
    var error: Option<string>
    /** Toasts raised so far, oldest first. */
    var toasts: seq<Toast>
    /** Requests issued so far, oldest first. */
    var requests: seq<PlanRequest>
    /** The state after each `set(...)` call, oldest first: what subscribers see. */
    ghost var sets: seq<Snapshot>

    function State(): Snapshot
      reads this
    {
      Snapshot(subscriptionPlans, loading, error)
    }

    constructor ()
      ensures State() == Snapshot([], false, None)
      ensures toasts == [] && requests == [] && sets == []
    {
      subscriptionPlans, loading, error := [], false, None;
      toasts, requests, sets := [], [], [];
    }

    /** Every operation opens with `set({ loading: true, error: null })`. */
    method Enter()
      modifies this
      ensures State() == Snapshot(old(subscriptionPlans), true, None)
      ensures toasts == old(toasts) && requests == old(requests)
      ensures sets == old(sets) + [State()]
    {
      loading, error := true, None;
      sets := sets + [State()];
    }

    /** The synchronous part of `fetchSubscriptionPlans`: the entry `set` and the GET. */
    method BeginFetch()
      modifies this
      ensures State() == Snapshot(old(subscriptionPlans), true, None)
      ensures toasts == old(toasts)
      ensures requests == old(requests) + [HttpGet(BasePath)]
      ensures sets == old(sets) + [State()]
    {
      Enter();
      requests := requests + [HttpGet(BasePath)];
    }

    /** The rest of `fetchSubscriptionPlans`, once the GET has an outcome. */
    method CompleteFetch(response: Response<seq<SubscriptionPlan>>)
      modifies this
      ensures !loading && requests == old(requests)
      ensures sets == old(sets) + [State()]
      ensures response.Succeeded? ==>
        subscriptionPlans == response.data && error == old(error) && toasts == old(toasts)
      ensures !response.Succeeded? ==>
        subscriptionPlans == old(subscriptionPlans) && error == FailureText(response, FetchFallback) &&
        toasts == old(toasts) + [ErrorToast(error)]
    {
      if response.Succeeded? {
        subscriptionPlans, loading := response.data, false;
      } else {
        error, loading := FailureText(response, FetchFallback), false;
        toasts := toasts + [ErrorToast(error)];
      }
      sets := sets + [State()];
    }

    /** `fetchSubscriptionPlans` run to completion. */
    method Fetch(response: Response<seq<SubscriptionPlan>>)
      modifies this
      ensures !loading
      ensures requests == old(requests) + [HttpGet(BasePath)]
      ensures sets == old(sets) + [Snapshot(old(subscriptionPlans), true, None), State()]
      ensures response.Succeeded? ==>
        subscriptionPlans == response.data && error == None && toasts == old(toasts)
      ensures !response.Succeeded? ==>
        subscriptionPlans == old(subscriptionPlans) && error == FailureText(response, FetchFallback) &&
        toasts == old(toasts) + [ErrorToast(error)]
    {
      BeginFetch();
      CompleteFetch(response);
    }

    /** How a create, update or delete that issued `request` leaves the store:
        it never touches the list; on success it has begun exactly one refetch
        (so `loading` is still set) and raised `successText`; on failure it
        stores the error, raises it, and refetches nothing. */
    twostate predicate Settled(request: PlanRequest, response: Response<()>,
                               successText: string, fallback: string)
      reads this
    {
      subscriptionPlans == old(subscriptionPlans) &&
      |sets| == |old(sets)| + 2 &&
      sets[..|old(sets)| + 1] == old(sets) + [Snapshot(old(subscriptionPlans), true, None)] &&
      sets[|old(sets)| + 1] == State() &&
      if response.Succeeded? then
        loading && error == None &&
        requests == old(requests) + [request, HttpGet(BasePath)] &&
        toasts == old(toasts) + [SuccessToast(successText)]
      else
        !loading && error == FailureText(response, fallback) &&
        requests == old(requests) + [request] &&
        toasts == old(toasts) + [ErrorToast(error)]
    }

    method Mutate(request: PlanRequest, response: Response<()>, successText: string, fallback: string)
      modifies this
      ensures Settled(request, response, successText, fallback)
    {
      Enter();
      requests := requests + [request];
      if response.Succeeded? {
        BeginFetch();
        toasts := toasts + [SuccessToast(successText)];
      } else {
        error, loading := FailureText(response, fallback), false;
        sets := sets + [State()];
        toasts := toasts + [ErrorToast(error)];
      }
    }

    /** `createSubscriptionPlan`: POST the new plan to the collection. */
    method Create(newPlan: NewPlan, response: Response<()>)
      modifies this
      ensures Settled(HttpPost(BasePath, newPlan), response, Created, CreateFallback)
    {
      Mutate(HttpPost(BasePath, newPlan), response, Created, CreateFallback);
    }

    /** `updateSubscriptionPlan`: PUT the changes to the plan's own path. */
    method Update(id: int, updatedPlan: SaveablePlan, response: Response<()>)
      modifies this
      ensures Settled(HttpPut(Paths.ItemPath(BasePath, id), updatedPlan), response, Updated, UpdateFallback)
    {
      Mutate(HttpPut(Paths.ItemPath(BasePath, id), updatedPlan), response, Updated, UpdateFallback);
    }

    /** `deleteSubscriptionPlan`: DELETE the plan's own path. */
    method Delete(id: int, response: Response<()>)
      modifies this
      ensures Settled(HttpDelete(Paths.ItemPath(BasePath, id)), response, Deleted, DeleteFallback)
    {
      Mutate(HttpDelete(Paths.ItemPath(BasePath, id)), response, Deleted, DeleteFallback);
    }
  }
}
