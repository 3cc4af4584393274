/** The tenant form (`TenantModal`): a `tenantData` record that is reset from
    the initial data, edited one input at a time, and handed to `onSave`. */
module TenantModal {
  import opened Api
  import opened TenantStore
  import opened ConstraintValidation

  /** The record the form starts from when it adds a tenant. */
  const Blank := TenantDraft(0, "", "", "", "", "", false)

  /** The text inputs of the form, by their `name` attribute. */
  datatype TextField = Name | Email | Domain | Subdomain | PhoneNumber

  /** A change event. The form's one checkbox is `active`; every other input
      (`type="text"` or `type="email"`) is named after a text field. */
  datatype ChangeEvent =
    | Typed(field: TextField, value: string)
    | Toggled(checked: bool)

  function TextOf(d: TenantDraft, f: TextField): string {
    match f
    case Name => d.name
    case Email => d.email
    case Domain => d.domain
    case Subdomain => d.subdomain
    case PhoneNumber => d.phoneNumber
  }

  /** `{ ...prev, [name]: type === 'checkbox' ? checked : value }`: the named
      field takes the input's value (the checkbox its `checked` flag) and
      nothing else changes. */
  function Applied(d: TenantDraft, e: ChangeEvent): (r: TenantDraft)
    ensures r.id == d.id
    ensures e.Typed? ==> TextOf(r, e.field) == e.value && r.active == d.active
    ensures e.Typed? ==> forall f :: f != e.field ==> TextOf(r, f) == TextOf(d, f)
    ensures e.Toggled? ==> r.active == e.checked && forall f :: TextOf(r, f) == TextOf(d, f)
  {
    match e
    case Toggled(checked) => d.(active := checked)
    case Typed(Name, v) => d.(name := v)
    case Typed(Email, v) => d.(email := v)
    case Typed(Domain, v) => d.(domain := v)
    case Typed(Subdomain, v) => d.(subdomain := v)
    case Typed(PhoneNumber, v) => d.(phoneNumber := v)
  }

  /** A record is determined by its id, its text fields and its flag, so two
      events on different fields commute. */
  lemma ChangesToDifferentFieldsCommute(d: TenantDraft, e1: ChangeEvent, e2: ChangeEvent)
    requires e1.Typed? && e2.Typed? ==> e1.field != e2.field
    requires e1.Toggled? ==> e2.Typed?
    ensures Applied(Applied(d, e1), e2) == Applied(Applied(d, e2), e1)
  {
    var a, b := Applied(Applied(d, e1), e2), Applied(Applied(d, e2), e1);
    forall f ensures TextOf(a, f) == TextOf(b, f) { }
    SameFieldsSameDraft(a, b);
  }

  lemma SameFieldsSameDraft(a: TenantDraft, b: TenantDraft)
    requires a.id == b.id && a.active == b.active
    requires forall f :: TextOf(a, f) == TextOf(b, f)
    ensures a == b
  {
    assert TextOf(a, Name) == TextOf(b, Name);
    assert TextOf(a, Email) == TextOf(b, Email);
    assert TextOf(a, Domain) == TextOf(b, Domain);
    assert TextOf(a, Subdomain) == TextOf(b, Subdomain);
    assert TextOf(a, PhoneNumber) == TextOf(b, PhoneNumber);
  }

  /** The form has no `noValidate`, so the browser fires `submit` only when
      each of the five `required` text inputs is filled and the e-mail input
      (`type="email"`) holds a valid address. */
  predicate Submittable(d: TenantDraft) {
    Filled(d.name) && Filled(d.email) && Filled(d.domain) && Filled(d.subdomain) &&
    Filled(d.phoneNumber) && EmailMatches(d.email)
  }

  /** The gate, read as one condition: no text field empty, and a valid
      address. */
  lemma SubmittableIff(d: TenantDraft)
    ensures Submittable(d) <==> (forall f :: TextOf(d, f) != "") && ValidEmail(d.email)
  {
    if Submittable(d) {
      forall f ensures TextOf(d, f) != "" {
        match f
        case Name =>
        case Email =>
        case Domain =>
        case Subdomain =>
        case PhoneNumber =>
      }
    } else if ValidEmail(d.email) {
      assert !Filled(d.name) || !Filled(d.domain) || !Filled(d.subdomain) || !Filled(d.phoneNumber);
      assert TextOf(d, Name) == "" || TextOf(d, Domain) == "" || TextOf(d, Subdomain) == "" ||
             TextOf(d, PhoneNumber) == "";
    }
  }

  /** Clearing any text input blocks the submit, whatever the rest holds. */
  lemma ClearedFieldBlocksSubmit(d: TenantDraft, f: TextField)
    ensures !Submittable(Applied(d, Typed(f, "")))
  {
    SubmittableIff(Applied(d, Typed(f, "")));
  }

  /** What the modal renders: nothing while closed, otherwise a form whose
      heading and submit label say whether it edits or adds. */
  datatype View = View(heading: string, submitLabel: string, values: TenantDraft)

  class Modal {
    var tenantData: TenantDraft

    constructor ()
      ensures tenantData == Blank
    {
      tenantData := Blank;
    }

    /** The effect run whenever `initialData` changes. */
    method Reset(initialData: Option<TenantDraft>)
      modifies this
      ensures initialData.Some? ==> tenantData == initialData.value
      ensures initialData.None? ==> tenantData == Blank
    {
      if initialData.Some? {
        tenantData := initialData.value;
      } else {
        tenantData := Blank;
      }
    }

    /** `handleChange`. */
    method HandleChange(e: ChangeEvent)
      modifies this
      ensures tenantData == Applied(old(tenantData), e)
    {
      tenantData := Applied(tenantData, e);
    }

    /** A press of the submit button. When the browser lets the `submit`
        event through, `handleSubmit` passes the record to `onSave`
        unchanged; otherwise nothing is saved. */
    method HandleSubmit() returns (saved: Option<TenantDraft>)
      ensures saved.Some? <==> Submittable(tenantData)
      ensures saved.Some? ==> saved.value == tenantData
    {
      if Submittable(tenantData) {
        saved := Some(tenantData);
      } else {
        saved := None;
      }
    }

    function Render(isOpen: bool, initialData: Option<TenantDraft>): (v: Option<View>)
      reads this
      ensures v.None? <==> !isOpen
      ensures v.Some? ==> v.value.values == tenantData
      ensures v.Some? && initialData.Some? ==>
        v.value.heading == "Edit Tenant" && v.value.submitLabel == "Update Tenant"
      ensures v.Some? && initialData.None? ==>
        v.value.heading == "Add Tenant" && v.value.submitLabel == "Add Tenant"
    {
      if !isOpen then None
      else if initialData.Some? then Some(View("Edit Tenant", "Update Tenant", tenantData))
      else Some(View("Add Tenant", "Add Tenant", tenantData))
    }
  }
}
