/** The subscription-plan list page (`AdminSubscriptionPlanPage`): its
    handlers drive the modal flags, the pending delete id and the plan being
    edited, and call into the plan store; its render picks spinner, error
    block or a table whose rows are numbered from 1. */
module AdminSubscriptionPlanPage {
  import opened Api
  import opened SubscriptionPlanStore
  import Paths
  import ListView
  import SubscriptionPlanModal

  function PlanId(p: SubscriptionPlan): int { p.id }

  function PlanName(p: SubscriptionPlan): string { p.name }

  /** The name the delete dialog shows for the pending id. */
  function DeleteItemName(plans: seq<SubscriptionPlan>, pending: Option<int>): string {
    ListView.ItemName(plans, PlanId, PlanName, pending, "subscription plan")
  }

  /** `if (planData.id)`: an absent id and the number 0 are both falsy. */
  predicate HasTruthyId(d: SaveablePlan) {
    d.id.Some? && d.id.value != 0
  }

  class Page {
    const store: Store
    var isModalOpen: bool
    var isDeleteModalOpen: bool
    var planToDeleteId: Option<int>
    /** The `initialData` handed to the plan modal. */
    var currentPlan: Option<SaveablePlan>

    constructor (store: Store)
      ensures this.store == store
      ensures !isModalOpen && !isDeleteModalOpen && planToDeleteId == None && currentPlan == None
    {
      this.store := store;
      isModalOpen, isDeleteModalOpen := false, false;
      planToDeleteId, currentPlan := None, None;
    }

    /** The mount effect: `fetchSubscriptionPlans()`, not awaited. Its
        completion is the store's `CompleteFetch`. */
    method Mount()
      modifies store
      ensures store.State() == Snapshot(old(store.subscriptionPlans), true, None)
      ensures store.requests == old(store.requests) + [HttpGet(BasePath)]
      ensures store.toasts == old(store.toasts)
      ensures store.sets == old(store.sets) + [store.State()]
    {
      store.BeginFetch();
    }

    /** `handleCreate`: open the modal on a blank form. */
    method HandleCreate()
      modifies this
      ensures currentPlan == None && isModalOpen
      ensures isDeleteModalOpen == old(isDeleteModalOpen) && planToDeleteId == old(planToDeleteId)
    {
      currentPlan := None;
      isModalOpen := true;
    }

    /** `handleEdit`: open the modal on the first plan with this id, if there
        is one; otherwise do nothing. */
    method HandleEdit(id: int)
      modifies this
      ensures var k := ListView.FindFirst(store.subscriptionPlans, PlanId, Some(id));
        if k.Some? then currentPlan == Some(SaveableOf(store.subscriptionPlans[k.value])) && isModalOpen
        else currentPlan == old(currentPlan) && isModalOpen == old(isModalOpen)
      ensures isDeleteModalOpen == old(isDeleteModalOpen) && planToDeleteId == old(planToDeleteId)
    {
      var k := ListView.FindFirst(store.subscriptionPlans, PlanId, Some(id));
      if k.Some? {
        currentPlan := Some(SaveableOf(store.subscriptionPlans[k.value]));
        isModalOpen := true;
      }
    }

    /** `handleDelete`: remember the id and ask for confirmation; the store is
        not touched. */
    method HandleDelete(id: int)
      modifies this
      ensures planToDeleteId == Some(id) && isDeleteModalOpen
      ensures isModalOpen == old(isModalOpen) && currentPlan == old(currentPlan)
    {
      planToDeleteId := Some(id);
      isDeleteModalOpen := true;
    }

    /** `confirmDelete`: with a pending id, delete that plan, then close the
        dialog and forget the id; with none, nothing happens. */
    method ConfirmDelete(response: Response<()>)
      modifies this, store
      ensures old(planToDeleteId).None? ==> unchanged(this) && unchanged(store)
      ensures old(planToDeleteId).Some? ==>
        store.Settled(HttpDelete(Paths.ItemPath(BasePath, old(planToDeleteId).value)), response,
                      Deleted, DeleteFallback) &&
        !isDeleteModalOpen && planToDeleteId == None
      ensures isModalOpen == old(isModalOpen) && currentPlan == old(currentPlan)
    {
      if planToDeleteId.Some? {
        store.Delete(planToDeleteId.value, response);
        isDeleteModalOpen := false;
        planToDeleteId := None;
      }
    }

    /** `handleSave`: a truthy id updates that plan with the whole record; an
        absent or zero id creates one from the record without its id. The
        modal closes either way. */
    method HandleSave(planData: SaveablePlan, response: Response<()>)
      modifies this, store
      ensures HasTruthyId(planData) ==>
        store.Settled(HttpPut(Paths.ItemPath(BasePath, planData.id.value), planData), response,
                      Updated, UpdateFallback)
      ensures !HasTruthyId(planData) ==>
        store.Settled(HttpPost(BasePath, WithoutId(planData)), response, Created, CreateFallback)
      ensures !isModalOpen
      ensures isDeleteModalOpen == old(isDeleteModalOpen) && planToDeleteId == old(planToDeleteId)
      ensures currentPlan == old(currentPlan)
    {
      if HasTruthyId(planData) {
        store.Update(planData.id.value, planData, response);
      } else {
        store.Create(WithoutId(planData), response);
      }
      isModalOpen := false;
    }

    /** The modal's `onClose`: only the modal flag changes. */
    method CloseModal()
      modifies this
      ensures !isModalOpen && currentPlan == old(currentPlan)
      ensures isDeleteModalOpen == old(isDeleteModalOpen) && planToDeleteId == old(planToDeleteId)
    {
      isModalOpen := false;
    }

    /** The delete dialog's `onClose`: the dialog closes but the pending id
        stays as it was. */
    method CloseDeleteDialog()
      modifies this
      ensures !isDeleteModalOpen && planToDeleteId == old(planToDeleteId)
      ensures isModalOpen == old(isModalOpen) && currentPlan == old(currentPlan)
    {
      isDeleteModalOpen := false;
    }

    /** The page as rendered from the store and the page's own flags. */
    function Render(): (s: ListView.Screen<ListView.Row<SubscriptionPlan>, Option<SaveablePlan>>)
      reads this, store
      ensures s.Table? ==> (s.modal.Some? <==> isModalOpen) && (s.deleteDialog.Some? <==> isDeleteModalOpen)
      ensures s.Table? ==> |s.rows| == |store.subscriptionPlans|
      ensures s.Table? ==> forall i :: 0 <= i < |s.rows| ==>
        s.rows[i] == ListView.Row(i + 1, store.subscriptionPlans[i])
      ensures s.Table? && isModalOpen ==> s.modal.value == currentPlan
      ensures s.Table? && isDeleteModalOpen ==>
        s.deleteDialog.value == DeleteItemName(store.subscriptionPlans, planToDeleteId)
    {
      ListView.Layout(store.loading, store.error, ListView.Numbered(store.subscriptionPlans),
                      if isModalOpen then Some(currentPlan) else None,
                      if isDeleteModalOpen then Some(DeleteItemName(store.subscriptionPlans, planToDeleteId))
                      else None)
    }
  }

  /** A plan list the server refuses with a message: the store keeps its list,
      shows the message on the page and raises it once. */
  method PlansUnavailable(list: seq<SubscriptionPlan>) returns (plans: seq<SubscriptionPlan>, error: Option<string>,
                                                              toasts: seq<Toast>, loading: bool)
    ensures plans == list && error == Some("db unavailable") && !loading
    ensures toasts == [ErrorToast(Some("db unavailable"))]
  {
    var store := new Store();
    store.Fetch(Succeeded(list));
    store.Fetch(Refused(Some("db unavailable")));
    plans, error, toasts, loading := store.subscriptionPlans, store.error, store.toasts, store.loading;
  }

  /** A new plan that allows no users: the form refuses it before anything is
      sent, and shows the users message; the page never reaches the store. */
  method NoUsersNeverSent(name: string, description: string) returns (saved: Option<SaveablePlan>,
                                                                  errors: SubscriptionPlanModal.Shown)
    ensures saved.None?
    ensures SubscriptionPlanModal.MaxUsers in errors && errors[SubscriptionPlanModal.MaxUsers] == "Max Users must be at least 1"
  {
    var modal := new SubscriptionPlanModal.Modal();
    modal.Reset(None);
    modal.Enter(SubscriptionPlanModal.NameInput(name));
    modal.Enter(SubscriptionPlanModal.DescriptionInput(description));
    modal.Enter(SubscriptionPlanModal.MaxUsersInput(0.0));
    SubscriptionPlanModal.StepExamples(modal.values);
    assert (0.0).Floor == 0;
    SubscriptionPlanModal.NoUsersRefused(modal.values);
    saved := modal.Submit();
    errors := modal.errors;
  }

  /** A valid new plan end to end: the form accepts it unchanged and the page
      POSTs it without an id, since the blank form has none; the server
      refuses it here, so no refetch follows. */
  method AddValidPlan(name: string, description: string) returns (requests: seq<PlanRequest>)
    requires name != "" && description != ""
    ensures requests == [HttpPost(BasePath, NewPlan(name, 0.0, 0.0, 1.0, 1.0, description))]
  {
    var store := new Store();
    var page := new Page(store);
    page.HandleCreate();
    var modal := new SubscriptionPlanModal.Modal();
    modal.Reset(page.currentPlan);
    modal.Enter(SubscriptionPlanModal.NameInput(name));
    modal.Enter(SubscriptionPlanModal.DescriptionInput(description));
    assert modal.values == SubscriptionPlanModal.Blank.(name := name, description := description);
    SubscriptionPlanModal.BlankNeedsNameAndDescription(name, description);
    SubscriptionPlanModal.StepExamples(modal.values);
    var saved := modal.Submit();
    assert saved == Some(SaveablePlan(None, name, 0.0, 0.0, 1.0, 1.0, description));
    page.HandleSave(saved.value, Refused(Some("name taken")));
    requests := store.requests;
  }

  /** A price with cents: the browser refuses the number input's step, so
      the form is not submitted, no message is shown and nothing is sent,
      although the schema itself would accept the plan. */
  method HalfPriceNeverSent(name: string, description: string) returns (saved: Option<SaveablePlan>,
                                                                    errors: SubscriptionPlanModal.Shown,
                                                                    requests: seq<PlanRequest>)
    requires name != "" && description != ""
    ensures saved.None? && errors == map[] && requests == []
    ensures SubscriptionPlanModal.Accepts(SubscriptionPlanModal.Blank.(name := name, description := description,
                                                                        priceMonthly := 9.5))
  {
    var store := new Store();
    var page := new Page(store);
    page.HandleCreate();
    var modal := new SubscriptionPlanModal.Modal();
    modal.Reset(page.currentPlan);
    modal.Enter(SubscriptionPlanModal.NameInput(name));
    modal.Enter(SubscriptionPlanModal.DescriptionInput(description));
    modal.Enter(SubscriptionPlanModal.PriceMonthlyInput(9.5));
    SubscriptionPlanModal.StepExamples(modal.values);
    saved := modal.Submit();
    errors, requests := modal.errors, store.requests;
  }
}
