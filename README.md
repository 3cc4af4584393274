# Smart-farm admin front end: stores, forms and list pages

A Dafny model of the admin dashboard of the smart-farming front end. The
dashboard manages two resources, tenants and subscription plans, and the
model covers the code that holds state for them:

- **The two resource stores** (`useTenantStore`, `useSubscriptionPlanStore`).
  Each is a `Store` class with the list, `loading` and `error` fields, and
  with fetch, create, update and delete methods. Each method takes the outcome
  of its HTTP call as a parameter (`Api.Response`: success envelope, refusal
  envelope with an optional message, or a thrown error with two optional
  messages). The methods record what they send in a `requests` log and the
  toasts they raise in a `toasts` log. A ghost `sets` trail holds the state
  after every `set(...)` call, so it shows that each operation first sets
  `loading = true, error = null`.
- **The unawaited refetch.** A successful create, update or delete calls
  `fetchTenants()` / `fetchSubscriptionPlans()` without awaiting it. The model
  splits the fetch in two: `BeginFetch` is its synchronous part (the entry
  `set` and the GET), and `CompleteFetch` is the later step that handles the
  GET's outcome. A successful mutation runs `BeginFetch` and no more, so
  afterwards `loading` is still true and the list is untouched.
- **The subscription-plan schema** (`Issues`, `Accepts`): one rule and one
  message per field. Also the form's values, the messages shown under the
  fields, their reset from the initial data, input edits (which re-validate
  the edited field once the form has been submitted), and the validating
  submit that reaches `onSave`.
- **The tenant form**: the blank record, reset from the initial data,
  single-field change, and submit.
- **The browser's own form checks** (`ConstraintValidation`). Neither form
  sets `noValidate`, so the browser fires `submit` only when its controls
  pass their checks. On the tenant form, the five `required` text inputs
  must be filled and the `type="email"` input must hold a valid e-mail
  address as the HTML Living Standard defines it. On the plan form, the four
  number inputs have no `step`, so each must hold a whole number. A form the
  browser stops reaches neither `onSave` nor the store.
- **The two list pages**: create-vs-update dispatch on a truthy id, the
  delete-confirmation flags, lookup for editing, render priority
  (spinner, then error block, then table), the delete dialog's name fallback,
  and row numbering.

Item paths (`/api/v1/tenants/7`) are built by `Paths.ItemPath`. The model
proves that the id can be read back from the path, so different ids address
different paths.

`null` and `undefined` are both `Api.None`: no modelled code tells them
apart. This makes one case visible. A refusal envelope without a message
stores no error text (`error` becomes `undefined` in the source), raises a
toast with no text, and leaves the page showing its table
(`AdminTenantPage.SilentRefusalShowsTable`).

Behaviour worth noting:

- A refusal stores the envelope's message as it is, with no fallback text.
  Only a thrown error falls back to the fixed "Failed to …" text.
- After a successful create, update or delete, `loading` stays true. It is
  cleared only when the refetch completes, not when the mutation returns.
- The thrown-error message prefers `err.response.data.message`, then
  `err.message`. A connection failure ends with the fixed text only when the
  error carries no message of its own (`DeleteSevenUnreachable`).
- The fetch fallback texts are plural ("Failed to fetch tenants",
  "Failed to fetch subscription plans"). The other fallback texts are
  singular.

## Model

| member | source | states |
|---|---|---|
| `Api.CaughtMessage` | src/store/tenantStore.ts:52-53 | the caught error text is the response message if truthy, else the exception message if truthy, else the fixed fallback; with a non-empty fallback it is never empty |
| `Api.FailureText` | src/store/tenantStore.ts:47-55 | a refusal stores the envelope message as is; a thrown error always stores a truthy text |
| `Api.RefusalWithoutMessageIsFalsy` | src/store/tenantStore.ts:48 | a refusal with a missing or empty message leaves a falsy `error` |
| `Paths.IdOfItemPath` | src/store/tenantStore.ts:81 | the id is read back from the item path built for it |
| `Paths.ItemPathInjective` | src/store/subscriptionPlanStore.ts:85-88 | two item paths are equal exactly when their ids are equal |
| `Paths.ParseIntText` | src/store/tenantStore.ts:100 | the decimal rendering of an id parses back to the id |
| `TenantStore.Store.constructor` | src/store/tenantStore.ts:36-39 | a new store has no tenants, is not loading and has no error |
| `TenantStore.Store.Enter` | src/store/tenantStore.ts:42 | the entry `set` publishes the old list with `loading` true and `error` null |
| `TenantStore.Store.BeginFetch` | src/store/tenantStore.ts:41-44 | the synchronous part of a fetch: entry state published, exactly one GET of the collection issued, no toast |
| `TenantStore.Store.CompleteFetch` | src/store/tenantStore.ts:43-56 | success replaces the list with exactly the response data and keeps `error`; a refusal or thrown error keeps the list, stores the failure text and raises exactly one error toast with it; `loading` ends false |
| `TenantStore.Store.Fetch` | src/store/tenantStore.ts:41-57 | a whole fetch: two `set`s (entry, then outcome); success leaves exactly the response data and no error; failure keeps the list and stores and toasts the failure text |
| `TenantStore.Store.Mutate` | src/store/tenantStore.ts:59-76 | the shared mutation pattern: the list is never changed; success issues the request plus one GET and one success toast with `loading` still true; failure issues only the request, stores and toasts the error, and clears `loading` |
| `TenantStore.Store.Create` | src/store/tenantStore.ts:59-76 | POST of the new tenant to `/api/v1/tenants`, settled as `Mutate` with the create texts |
| `TenantStore.Store.Update` | src/store/tenantStore.ts:78-95 | PUT to `/api/v1/tenants/<id>`, settled as `Mutate` with the update texts |
| `TenantStore.Store.Delete` | src/store/tenantStore.ts:97-114 | DELETE of `/api/v1/tenants/<id>`, settled as `Mutate` with the delete texts |
| `SubscriptionPlanStore.Store.constructor` | src/store/subscriptionPlanStore.ts:37-39 | a new store has no plans, is not loading and has no error |
| `SubscriptionPlanStore.Store.Enter` | src/store/subscriptionPlanStore.ts:42 | the entry `set` publishes the old list with `loading` true and `error` null |
| `SubscriptionPlanStore.Store.BeginFetch` | src/store/subscriptionPlanStore.ts:41-44 | entry state published and exactly one GET of `/api/v1/subscription-plans` issued |
| `SubscriptionPlanStore.Store.CompleteFetch` | src/store/subscriptionPlanStore.ts:43-58 | success replaces the plans with exactly the response data; failure keeps them, stores the failure text and raises one error toast; `loading` ends false |
| `SubscriptionPlanStore.Store.Fetch` | src/store/subscriptionPlanStore.ts:41-59 | a whole fetch, as for tenants, with the plan fallback text |
| `SubscriptionPlanStore.Store.Mutate` | src/store/subscriptionPlanStore.ts:61-80 | the list is never changed; success adds exactly one refetch and one success toast; failure clears `loading`, stores and toasts the error, and refetches nothing |
| `SubscriptionPlanStore.Store.Create` | src/store/subscriptionPlanStore.ts:61-80 | POST of the new plan, settled with the create texts |
| `SubscriptionPlanStore.Store.Update` | src/store/subscriptionPlanStore.ts:82-104 | PUT to `/api/v1/subscription-plans/<id>`, settled with the update texts |
| `SubscriptionPlanStore.Store.Delete` | src/store/subscriptionPlanStore.ts:106-125 | DELETE of `/api/v1/subscription-plans/<id>`, settled with the delete texts |
| `ConstraintValidation.DomainShape` | src/components/admin/TenantModal.tsx:95 | a domain accepted by the e-mail check holds only letters, digits, hyphens and dots, and begins and ends with a letter or digit |
| `ConstraintValidation.DotsBetweenLetDigs` | src/components/admin/TenantModal.tsx:95 | in an accepted domain every dot has a letter or digit on both sides |
| `ConstraintValidation.LabelStartsWithLetDig` | src/components/admin/TenantModal.tsx:95 | in an accepted address the character after the `@`, and after each dot past it, is a letter or digit |
| `ConstraintValidation.ValidEmailShape` | src/components/admin/TenantModal.tsx:95 | an address accepted by the e-mail check holds an `@` and no second one, has at least three characters and ends with a letter or digit |
| `ConstraintValidation.AcceptedEmail` | src/components/admin/TenantModal.tsx:95 | "a@acme.io" passes the e-mail check |
| `ConstraintValidation.NoAtRefused` | src/components/admin/TenantModal.tsx:95 | every address without `@` fails the e-mail check |
| `ConstraintValidation.EmptyLocalPartRefused` | src/components/admin/TenantModal.tsx:95 | every address that begins with `@` fails the e-mail check |
| `ConstraintValidation.TrailingDotRefused` | src/components/admin/TenantModal.tsx:95 | every address that ends with a dot fails the e-mail check |
| `ConstraintValidation.LeadingHyphenRefused` | src/components/admin/TenantModal.tsx:95 | every address in which a domain label (after the `@` or after a later dot) begins with a hyphen fails the e-mail check |
| `SubscriptionPlanModal.IssuesOn` | src/components/admin/SubscriptionPlanModal.tsx:19-27 | an issue is reported exactly for each listed field that fails its rule, carrying that field's message |
| `SubscriptionPlanModal.NoIssuesIffAccepted` | src/components/admin/SubscriptionPlanModal.tsx:19-27 | no issue is reported exactly when both strings are non-empty, both prices are at least 0 and both limits at least 1 |
| `SubscriptionPlanModal.IssueIffFieldFails` | src/components/admin/SubscriptionPlanModal.tsx:21-26 | a field is reported, with its own message, exactly when its rule fails |
| `SubscriptionPlanModal.NoUsersRefused` | src/components/admin/SubscriptionPlanModal.tsx:24 | `maxUsers = 0` is refused with "Max Users must be at least 1" |
| `SubscriptionPlanModal.AcceptsIgnoresId` | src/components/admin/SubscriptionPlanModal.tsx:20 | the issues, and so acceptance, do not depend on the id |
| `SubscriptionPlanModal.IssuesOnIgnoresId` | src/components/admin/SubscriptionPlanModal.tsx:20 | no rule reads the id, on any list of fields |
| `SubscriptionPlanModal.BlankNeedsNameAndDescription` | src/components/admin/SubscriptionPlanModal.tsx:66-74 | the blank record is refused for exactly its name and description, and is accepted once both are filled in |
| `SubscriptionPlanModal.Entered` | src/components/admin/SubscriptionPlanModal.tsx:98-198 | editing one input stores its value in its own field; the id and every other field keep their values, and so their verdicts |
| `SubscriptionPlanModal.ErrorsOf` | src/components/admin/SubscriptionPlanModal.tsx:48 | a failed submit shows a message exactly under each field that fails its rule, with that rule's message; nothing is shown exactly when the schema accepts |
| `SubscriptionPlanModal.ErrorsOfMatchesIssues` | src/components/admin/SubscriptionPlanModal.tsx:19-27 | the messages shown are exactly the schema's issues, field by field |
| `SubscriptionPlanModal.Revalidated` | src/components/admin/SubscriptionPlanModal.tsx:49-50 | re-validating one field shows its message exactly when it fails and leaves the other fields' messages as they were |
| `SubscriptionPlanModal.RevalidationTracksSchema` | src/components/admin/SubscriptionPlanModal.tsx:49-50 | after a failed submit, re-validating each edited field keeps the shown messages equal to what a new submit of the current values would show |
| `SubscriptionPlanModal.StepExamples` | src/components/admin/SubscriptionPlanModal.tsx:117-121 | the default values pass the number inputs' step check and a monthly price of 9.5 fails it |
| `SubscriptionPlanModal.Modal.constructor` | src/components/admin/SubscriptionPlanModal.tsx:44-60 | the form starts from the default values, shows no message and has not been submitted |
| `SubscriptionPlanModal.Modal.Reset` | src/components/admin/SubscriptionPlanModal.tsx:62-76 | with initial data the values become exactly that data, otherwise the blank record; the messages and the submitted state are cleared |
| `SubscriptionPlanModal.Modal.Enter` | src/components/admin/SubscriptionPlanModal.tsx:44-50 | a registered input stores its value in its field; before the first submit the messages stay as they are, after it the edited field's message is replaced by the schema's new verdict on it |
| `SubscriptionPlanModal.Modal.Submit` | src/components/admin/SubscriptionPlanModal.tsx:78-90 | when a number is not whole the browser stops the submit and nothing changes; otherwise `onSave` is reached exactly when the schema accepts the values and receives them unchanged, and a refusal shows one message per failing field; either way the form counts as submitted |
| `SubscriptionPlanModal.Modal.Render` | src/components/admin/SubscriptionPlanModal.tsx:82-88 | nothing is rendered while closed; heading and button say "Edit"/"Update" with initial data and "Add" without |
| `TenantModal.Applied` | src/components/admin/TenantModal.tsx:50-53 | a change sets the named field (the checkbox its boolean, a text input its string) and leaves every other field unchanged |
| `TenantModal.ChangesToDifferentFieldsCommute` | src/components/admin/TenantModal.tsx:50-53 | changes to different fields can be applied in either order |
| `TenantModal.SubmittableIff` | src/components/admin/TenantModal.tsx:69-153 | the browser submits the form exactly when no text field is empty and the e-mail field holds a valid address |
| `TenantModal.ClearedFieldBlocksSubmit` | src/components/admin/TenantModal.tsx:77-85 | emptying any text input stops the submit, whatever the other fields hold |
| `TenantModal.Modal.constructor` | src/components/admin/TenantModal.tsx:17-27 | the form starts from id 0, empty strings and `active` false |
| `TenantModal.Modal.Reset` | src/components/admin/TenantModal.tsx:29-43 | with initial data the record becomes exactly that data, otherwise the blank record |
| `TenantModal.Modal.HandleChange` | src/components/admin/TenantModal.tsx:45-54 | the record becomes the old record with the change applied |
| `TenantModal.Modal.HandleSubmit` | src/components/admin/TenantModal.tsx:56-59 | `onSave` is reached exactly when the browser lets the form through, and then receives the current record unchanged |
| `TenantModal.Modal.Render` | src/components/admin/TenantModal.tsx:61-67 | nothing is rendered while closed; the heading is "Edit Tenant" exactly when there is initial data, else "Add Tenant" |
| `ListView.Layout` | src/page/AdminTenantPage.tsx:74-93 | the spinner shows exactly while loading; otherwise the error block shows exactly when `error` is truthy, with that text; otherwise the table |
| `ListView.FindFirst` | src/page/AdminTenantPage.tsx:42 | the index found holds the id and no earlier item does; none is found exactly when no item holds the id |
| `ListView.ItemName` | src/page/AdminTenantPage.tsx:212-214 | the name of the first item with the id if that name is non-empty; otherwise (no such item, an empty first name, or no pending id) the fallback; never empty |
| `ListView.Numbered` | src/page/AdminSubscriptionPlanPage.tsx:139-142 | each row keeps its item and shows its 1-based position; the numbers run from 1 to the list's length |
| `AdminTenantPage.Page.constructor` | src/page/AdminTenantPage.tsx:24-30 | both dialogs closed, no pending id, no current tenant |
| `AdminTenantPage.Page.Mount` | src/page/AdminTenantPage.tsx:32-34 | mounting begins one fetch: one entry `set` with the old list, `loading` true and no error, and one GET |
| `AdminTenantPage.Page.HandleCreate` | src/page/AdminTenantPage.tsx:36-39 | the current tenant is cleared and the modal opens |
| `AdminTenantPage.Page.HandleEdit` | src/page/AdminTenantPage.tsx:41-47 | the modal opens on the first tenant with the id, if there is one; otherwise nothing changes |
| `AdminTenantPage.Page.HandleDelete` | src/page/AdminTenantPage.tsx:49-52 | the id is recorded and the dialog opens; the store is not touched |
| `AdminTenantPage.Page.ConfirmDelete` | src/page/AdminTenantPage.tsx:54-60 | with a pending id, that tenant is deleted, the dialog closes and the id is cleared; with none, nothing changes |
| `AdminTenantPage.Page.HandleSave` | src/page/AdminTenantPage.tsx:62-72 | a non-zero id updates that tenant with the record; id 0 creates the record without its id; the modal closes either way |
| `AdminTenantPage.Page.CloseModal` | src/page/AdminTenantPage.tsx:201 | only the modal flag is cleared |
| `AdminTenantPage.Page.CloseDeleteDialog` | src/page/AdminTenantPage.tsx:210 | the dialog closes and the pending id is kept |
| `AdminTenantPage.Page.Render` | src/page/AdminTenantPage.tsx:74-216 | in the table view, the modal and the dialog appear exactly when their flags are set, with the current tenant and the pending tenant's name |
| `AdminTenantPage.ThrownFetchShowsError` | src/page/AdminTenantPage.tsx:85-91 | after a thrown fetch the page shows the error block with the caught text |
| `AdminTenantPage.SilentRefusalShowsTable` | src/page/AdminTenantPage.tsx:85-93 | after a refusal whose message is missing or empty the page shows the table |
| `AdminTenantPage.DeleteSevenUnreachable` | src/store/tenantStore.ts:97-114 | a DELETE of tenant 7 that throws without messages goes to `/api/v1/tenants/7`, stores "Failed to delete tenant", toasts it once and refetches nothing |
| `AdminTenantPage.CreateAcme` | src/page/AdminTenantPage.tsx:62-72 | saving a blank-id record POSTs it without id, begins one GET, raises one success toast, closes the modal and leaves the list and `loading` to the refetch |
| `AdminTenantPage.RenameListed` | src/page/AdminTenantPage.tsx:41-72 | editing a listed tenant and retyping its name PUTs the record to that tenant's path with only the name changed when the browser lets the form through; an empty name, or any other field the browser refuses, sends nothing after the first GET |
| `AdminTenantPage.FetchTwice` | src/store/tenantStore.ts:41-57 | two fetches with the same answer leave the same list and no error |
| `AdminSubscriptionPlanPage.Page.constructor` | src/page/AdminSubscriptionPlanPage.tsx:29-33 | both dialogs closed, no pending id, no current plan |
| `AdminSubscriptionPlanPage.Page.Mount` | src/page/AdminSubscriptionPlanPage.tsx:35-37 | mounting begins one fetch: one entry `set` with the old plans, `loading` true and no error, and one GET |
| `AdminSubscriptionPlanPage.Page.HandleCreate` | src/page/AdminSubscriptionPlanPage.tsx:39-42 | the current plan is cleared and the modal opens |
| `AdminSubscriptionPlanPage.Page.HandleEdit` | src/page/AdminSubscriptionPlanPage.tsx:44-50 | the modal opens on the first plan with the id, if there is one; otherwise nothing changes |
| `AdminSubscriptionPlanPage.Page.HandleDelete` | src/page/AdminSubscriptionPlanPage.tsx:52-55 | the id is recorded and the dialog opens; the store is not touched |
| `AdminSubscriptionPlanPage.Page.ConfirmDelete` | src/page/AdminSubscriptionPlanPage.tsx:57-63 | with a pending id, that plan is deleted, then the flag and the id are reset; with none, nothing changes |
| `AdminSubscriptionPlanPage.Page.HandleSave` | src/page/AdminSubscriptionPlanPage.tsx:65-73 | a truthy id updates that plan; an absent or zero id creates the record without its id; the modal closes either way |
| `AdminSubscriptionPlanPage.Page.CloseModal` | src/page/AdminSubscriptionPlanPage.tsx:194 | only the modal flag is cleared |
| `AdminSubscriptionPlanPage.Page.CloseDeleteDialog` | src/page/AdminSubscriptionPlanPage.tsx:203 | the dialog closes and the pending id is kept |
| `AdminSubscriptionPlanPage.Page.Render` | src/page/AdminSubscriptionPlanPage.tsx:75-210 | in the table view, the rows are the plans numbered from 1, and the modal and dialog appear exactly when their flags are set |
| `AdminSubscriptionPlanPage.PlansUnavailable` | src/store/subscriptionPlanStore.ts:47-50 | a refusal "db unavailable" keeps the fetched list, stores the message, clears `loading` and toasts it once |
| `AdminSubscriptionPlanPage.NoUsersNeverSent` | src/components/admin/SubscriptionPlanModal.tsx:24 | a plan with `maxUsers = 0` is not saved and shows the users message |
| `AdminSubscriptionPlanPage.AddValidPlan` | src/page/AdminSubscriptionPlanPage.tsx:65-72 | a filled-in blank form is accepted unchanged and POSTed without an id |
| `AdminSubscriptionPlanPage.HalfPriceNeverSent` | src/components/admin/SubscriptionPlanModal.tsx:117-121 | a monthly price of 9.5 is stopped by the browser before validation: nothing is saved, no message is shown and nothing is sent, although the schema accepts the plan |

## Left out

- The HTTP client is not modelled: the tenant store's own axios instance (base URL `http://localhost:8080`) and the plan store's `api` from `src/config/api`, which is not part of this model. Each call's outcome is a method parameter.
- react-toastify is not modelled; toasts are appended to a log.
- Async interleaving is not modelled. Operations run one after another, and the unawaited refetch is the explicit `CompleteFetch` step. Two overlapping requests, and which refetch finishes last, are not modelled.
- zod and react-hook-form are modelled only as far as the form uses them: the per-field messages, `reset`, validation on submit and re-validation of the edited field after a submit. The `NaN` that `valueAsNumber` yields for an empty number input is not modelled. zod's parse drops keys the schema does not declare, such as an edited plan's `createdAt`/`updatedAt`; the model drops them earlier, when `HandleEdit` builds the form's initial record (`SaveableOf`), so `onSave` receives the same declared-key record. Prices and limits are `real` and never `NaN`.
- Of the browser's checks, only `required`, the e-mail format and the number step are modelled. The browser's own sanitizing of an e-mail input's value (it drops line breaks and surrounding spaces) is not: the model checks the string the form state holds. The browser's refusal of text typed into a number input, and the message bubble it shows, are not modelled.
- The numeric inputs are modelled only as the value they store; the form markup and labels are not.
- `TenantStore.Store.Update`: the update body is typed `Partial<Tenant>` in the source, but the model fixes it to the full seven-field record, which is what the only caller sends. When editing, the source's form state also carries the tenant's `createdAt`/`updatedAt` as extra keys, which go out in the PUT body. The model's record has only the seven declared fields.
- `SubscriptionPlanStore.Store.Update`: likewise, the body is the saveable plan record rather than an arbitrary `Partial<SubscriptionPlan>`.
- `Paths.ItemPath`: renders integral ids only. JavaScript's exponent notation for numbers of magnitude 1e21 and above, and fractional ids, are not modelled.
- A success envelope without `data` (which would leave the list `undefined`) is not modelled: a success always carries a list.
- `TenantModal.Applied`: a change event is assumed to come from one of the form's own inputs. Only `active` is a checkbox, and every other input is named after a text field. The source's computed key `[name]` would accept any name.
- The delete-confirmation dialog's markup is not modelled; only the name it is given and its open flag are.
- Currency formatting of prices (`toLocaleString('id-ID')`) is not modelled. It is a locale library call.
- The landing page is not modelled. Its discount price uses floating-point arithmetic and locale formatting.
- Header, footer and not-found page are not modelled. They fetch JSON and change the document title and favicon.
- Routing and purely presentational components (sidebar, navbar, layout, dashboard, registration form) are not modelled.
