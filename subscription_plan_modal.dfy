/** The subscription-plan form (`SubscriptionPlanModal`): a validation schema
    over `SaveableSubscriptionPlan`, the values the form holds, their reset from
    the initial data, and the validating submit that reaches `onSave`. */
module SubscriptionPlanModal {
  import opened Api
  import opened SubscriptionPlanStore
  import opened ConstraintValidation

  /** The record the form starts from when it adds a plan. */
  const Blank := SaveablePlan(None, "", 0.0, 0.0, 1.0, 1.0, "")

  /** The validated fields, in the schema's key order. */
  datatype PlanField = Name | PriceMonthly | PriceYearly | MaxUsers | MaxDevices | Description

  const SchemaOrder := [Name, PriceMonthly, PriceYearly, MaxUsers, MaxDevices, Description]

  lemma InSchemaOrder(f: PlanField)
    ensures f in SchemaOrder
  {
  }

  /** One failed rule, reported under its field. */
  datatype Issue = Issue(field: PlanField, message: string)

  /** The schema, read as one condition: both strings non-empty, both prices
      at least 0, both limits at least 1, and no condition on `id`. */
  predicate Accepts(d: SaveablePlan) {
    |d.name| >= 1 && d.priceMonthly >= 0.0 && d.priceYearly >= 0.0 &&
    d.maxUsers >= 1.0 && d.maxDevices >= 1.0 && |d.description| >= 1
  }

  /** The rule the schema attaches to one field. */
  predicate Passes(d: SaveablePlan, f: PlanField) {
    match f
    case Name => |d.name| >= 1
    case PriceMonthly => d.priceMonthly >= 0.0
    case PriceYearly => d.priceYearly >= 0.0
    case MaxUsers => d.maxUsers >= 1.0
    case MaxDevices => d.maxDevices >= 1.0
    case Description => |d.description| >= 1
  }

  /** The message the schema attaches to one field's rule. */
  function Message(f: PlanField): string {
    match f
    case Name => "Name is required"
    case PriceMonthly => "Price Monthly must be a positive number"
    case PriceYearly => "Price Yearly must be a positive number"
    case MaxUsers => "Max Users must be at least 1"
    case MaxDevices => "Max Devices must be at least 1"
    case Description => "Description is required"
  }

  /** The issues found on the fields `fs`, in that order. */
  function IssuesOn(d: SaveablePlan, fs: seq<PlanField>): (r: seq<Issue>)
    ensures forall i :: i in r <==> i.field in fs && !Passes(d, i.field) && i.message == Message(i.field)
  {
    if fs == [] then []
    else (if Passes(d, fs[0]) then [] else [Issue(fs[0], Message(fs[0]))]) + IssuesOn(d, fs[1..])
  }

  /** What the schema reports for a record: one issue per failing field. */
  function Issues(d: SaveablePlan): seq<Issue> {
    IssuesOn(d, SchemaOrder)
  }

  /** A record is accepted exactly when the schema reports no issue. */
  lemma NoIssuesIffAccepted(d: SaveablePlan)
    ensures Issues(d) == [] <==> Accepts(d)
  {
    if Issues(d) == [] {
      forall f ensures Passes(d, f) {
        InSchemaOrder(f);
        assert Issue(f, Message(f)) !in Issues(d);
      }
      assert Passes(d, Name) && Passes(d, PriceMonthly) && Passes(d, PriceYearly);
      assert Passes(d, MaxUsers) && Passes(d, MaxDevices) && Passes(d, Description);
    } else {
      var i := Issues(d)[0];
      assert i in Issues(d);
    }
  }

  /** Each failing field is reported with its own message, and only failing
      fields are reported. */
  lemma IssueIffFieldFails(d: SaveablePlan, f: PlanField)
    ensures Issue(f, Message(f)) in Issues(d) <==> !Passes(d, f)
    ensures forall i :: i in Issues(d) ==> i.message == Message(i.field)
  {
    InSchemaOrder(f);
  }

  /** A plan with no users allowed is refused with the users message. */
  lemma NoUsersRefused(d: SaveablePlan)
    requires d.maxUsers == 0.0
    ensures Issue(MaxUsers, "Max Users must be at least 1") in Issues(d)
    ensures !Accepts(d)
  {
    IssueIffFieldFails(d, MaxUsers);
  }

  /** Whether the id is present never changes the verdict. */
  lemma AcceptsIgnoresId(d: SaveablePlan, id: Option<int>)
    ensures Issues(d.(id := id)) == Issues(d)
  {
    IssuesOnIgnoresId(d, id, SchemaOrder);
  }

  lemma {:induction false} IssuesOnIgnoresId(d: SaveablePlan, id: Option<int>, fs: seq<PlanField>)
    ensures IssuesOn(d.(id := id), fs) == IssuesOn(d, fs)
  {
    if fs != [] {
      IssuesOnIgnoresId(d, id, fs[1..]);
    }
  }

  /** The blank record is refused until both its name and its description are
      filled in; its numbers already pass. */
  lemma BlankNeedsNameAndDescription(name: string, description: string)
    ensures Accepts(Blank.(name := name, description := description)) <==> name != "" && description != ""
    ensures Issues(Blank) == [Issue(Name, "Name is required"), Issue(Description, "Description is required")]
  {
  }

  /** One registered input, with the value the form stores (the numeric
      inputs are registered `valueAsNumber`). */
  datatype Input =
    | NameInput(text: string)
    | PriceMonthlyInput(amount: real)
    | PriceYearlyInput(amount: real)
    | MaxUsersInput(amount: real)
    | MaxDevicesInput(amount: real)
    | DescriptionInput(text: string)

  /** The field an input edits. */
  function InputField(i: Input): PlanField {
    match i
    case NameInput(_) => Name
    case PriceMonthlyInput(_) => PriceMonthly
    case PriceYearlyInput(_) => PriceYearly
    case MaxUsersInput(_) => MaxUsers
    case MaxDevicesInput(_) => MaxDevices
    case DescriptionInput(_) => Description
  }

  /** Whether two records hold the same value in field `f`. */
  predicate Agrees(a: SaveablePlan, b: SaveablePlan, f: PlanField) {
    match f
    case Name => a.name == b.name
    case PriceMonthly => a.priceMonthly == b.priceMonthly
    case PriceYearly => a.priceYearly == b.priceYearly
    case MaxUsers => a.maxUsers == b.maxUsers
    case MaxDevices => a.maxDevices == b.maxDevices
    case Description => a.description == b.description
  }

  /** Editing one input stores the input's value in its field; the id and
      every other field keep their values, and so their verdicts. */
  function Entered(d: SaveablePlan, i: Input): (r: SaveablePlan)
    ensures r.id == d.id
    ensures forall f :: f != InputField(i) ==> Agrees(r, d, f) && Passes(r, f) == Passes(d, f)
    ensures i.NameInput? ==> r.name == i.text
    ensures i.PriceMonthlyInput? ==> r.priceMonthly == i.amount
    ensures i.PriceYearlyInput? ==> r.priceYearly == i.amount
    ensures i.MaxUsersInput? ==> r.maxUsers == i.amount
    ensures i.MaxDevicesInput? ==> r.maxDevices == i.amount
    ensures i.DescriptionInput? ==> r.description == i.text
  {
    match i
    case NameInput(t) => d.(name := t)
    case PriceMonthlyInput(a) => d.(priceMonthly := a)
    case PriceYearlyInput(a) => d.(priceYearly := a)
    case MaxUsersInput(a) => d.(maxUsers := a)
    case MaxDevicesInput(a) => d.(maxDevices := a)
    case DescriptionInput(t) => d.(description := t)
  }

  /** The messages shown under the fields, by field (`formState.errors`). */
  type Shown = map<PlanField, string>

  /** What a failed submit shows: each failing field with its message. */
  function ErrorsOf(d: SaveablePlan): (m: Shown)
    ensures forall f :: f in m <==> !Passes(d, f)
    ensures forall f :: f in m ==> m[f] == Message(f)
    ensures m == map[] <==> Accepts(d)
  {
    var m := map f | f in SchemaOrder && !Passes(d, f) :: Message(f);
    FailingFields(d, m);
    m
  }

  /** A map keyed by the failing fields of the schema is empty exactly when
      the record is accepted. */
  lemma FailingFields(d: SaveablePlan, m: Shown)
    requires forall f :: f in m <==> f in SchemaOrder && !Passes(d, f)
    ensures forall f :: f in m <==> !Passes(d, f)
    ensures m == map[] <==> Accepts(d)
  {
    forall f ensures f in m <==> !Passes(d, f) {
      InSchemaOrder(f);
    }
    if !Accepts(d) {
      var f :| !Passes(d, f);
      assert f in m;
    }
  }

  /** The messages a failed submit shows are exactly the schema's issues. */
  lemma ErrorsOfMatchesIssues(d: SaveablePlan)
    ensures forall f :: f in ErrorsOf(d) <==> Issue(f, Message(f)) in Issues(d)
    ensures forall i :: i in Issues(d) ==> i.field in ErrorsOf(d) && ErrorsOf(d)[i.field] == i.message
  {
  }

  /** Re-validating field `f` of `d` after a change: the schema's verdict on
      `f` replaces what was shown for it, and nothing else changes. */
  function Revalidated(shown: Shown, d: SaveablePlan, f: PlanField): (m: Shown)
    ensures f in m <==> !Passes(d, f)
    ensures f in m ==> m[f] == Message(f)
    ensures forall g :: g != f ==> (g in m <==> g in shown) && (g in m ==> m[g] == shown[g])
  {
    if Passes(d, f) then shown - {f} else shown[f := Message(f)]
  }

  /** After a submit, re-validating on each change keeps the shown messages
      exactly those a new submit would show. */
  lemma RevalidationTracksSchema(d: SaveablePlan, i: Input)
    ensures Revalidated(ErrorsOf(d), Entered(d, i), InputField(i)) == ErrorsOf(Entered(d, i))
  {
  }

  /** The browser's own check on the four number inputs, which have no
      `step`: each value must be a whole number, or the form is not
      submitted. */
  predicate StepsMatch(d: SaveablePlan) {
    StepMatches(d.priceMonthly) && StepMatches(d.priceYearly) &&
    StepMatches(d.maxUsers) && StepMatches(d.maxDevices)
  }

  /** The blank record passes the step check, and a price with cents fails
      it. */
  lemma StepExamples(d: SaveablePlan)
    ensures StepsMatch(Blank)
    ensures !StepsMatch(d.(priceMonthly := 9.5))
  {
  }

  /** What the modal renders: nothing while closed, otherwise a form whose
      heading and submit label say whether it edits or adds. */
  datatype View = View(heading: string, submitLabel: string, values: SaveablePlan, errors: Shown)

  class Modal {
    /** The values the form holds. */
    var values: SaveablePlan
    /** The messages shown under the fields. */
    var errors: Shown
    /** `formState.isSubmitted`: from then on each change re-validates its
        field (`reValidateMode: 'onChange'`, the default). */
    var submitted: bool

    /** `useForm` with its `defaultValues`. */
    constructor ()
      ensures values == Blank && errors == map[] && !submitted
    {
      values, errors, submitted := Blank, map[], false;
    }

    /** The effect run whenever `initialData` changes: `reset(...)`, which
        also clears the errors and the submitted state. */
    method Reset(initialData: Option<SaveablePlan>)
      modifies this
      ensures initialData.Some? ==> values == initialData.value
      ensures initialData.None? ==> values == Blank
      ensures errors == map[] && !submitted
    {
      if initialData.Some? {
        values := initialData.value;
      } else {
        values := Blank;
      }
      errors, submitted := map[], false;
    }

    /** The user edits one registered input. Before the first submit the
        messages stay as they are; after it, the edited field is
        re-validated. */
    method Enter(i: Input)
      modifies this
      ensures values == Entered(old(values), i) && submitted == old(submitted)
      ensures !submitted ==> errors == old(errors)
      ensures submitted ==> errors == Revalidated(old(errors), values, InputField(i))
    {
      values := Entered(values, i);
      if submitted {
        errors := Revalidated(errors, values, InputField(i));
      }
    }

    /** A press of the submit button. When a number is not whole the browser
        does not fire `submit` and nothing changes. Otherwise
        `handleSubmit(onSubmit)` validates: `onSave` receives the values
        unchanged only if the schema accepts them, and otherwise their
        issues are shown. */
    method Submit() returns (saved: Option<SaveablePlan>)
      modifies this
      ensures values == old(values)
      ensures !StepsMatch(values) ==> saved.None? && errors == old(errors) && submitted == old(submitted)
      ensures saved.Some? <==> StepsMatch(values) && Accepts(values)
      ensures saved.Some? ==> saved.value == values && errors == map[] && submitted
      ensures StepsMatch(values) && saved.None? ==> errors == ErrorsOf(values) && errors != map[] && submitted
    {
      if !StepsMatch(values) {
        saved := None;
      } else if Accepts(values) {
        saved, errors, submitted := Some(values), map[], true;
      } else {
        saved, errors, submitted := None, ErrorsOf(values), true;
      }
    }

    function Render(isOpen: bool, initialData: Option<SaveablePlan>): (v: Option<View>)
      reads this
      ensures v.None? <==> !isOpen
      ensures v.Some? ==> v.value.values == values && v.value.errors == errors
      ensures v.Some? && initialData.Some? ==>
        v.value.heading == "Edit Subscription Plan" && v.value.submitLabel == "Update Subscription Plan"
      ensures v.Some? && initialData.None? ==>
        v.value.heading == "Add Subscription Plan" && v.value.submitLabel == "Add Subscription Plan"
    {
      if !isOpen then None
      else if initialData.Some? then
        Some(View("Edit Subscription Plan", "Update Subscription Plan", values, errors))
      else Some(View("Add Subscription Plan", "Add Subscription Plan", values, errors))
    }
  }
}
