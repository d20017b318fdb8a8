# Create-ticket form: cascading selection and submission model

This project models the decision logic of the support-ticket intake form of
OpenSupports Next (`CreateTicketForm`). The form picks a department, then a
client and then a client user. Each list depends on the one before it and is
loaded step by step. On submit, the form composes extra ticket fields from the
actor's role and the selected entries.

One department is special: the franchise department, whose id passes
`parseInt(id) === 2`. Under it, the "clients" are the session's franchising
departments. For internal staff, the "client users" are the staff of the
chosen franchising department, and the ticket names that person as
`staffClientId`.

Modules (one file each):

- `Wrappers`: the `Option` type, used where JavaScript gives `undefined` or `NaN`.
- `JsCoercion`: the `parseInt` algorithm of ECMA-262 (section 19.2.5 in the
  2022 and later editions). It covers white space, sign, the `0x` prefix and
  the longest digit prefix. The franchise test `IsFranchise` is built on it and
  characterised exactly by `IsFranchiseIff`.
- `Entities`: the loosely typed records (`Entry`) and the form draft (`Form`).
  Also the index lookups (`At`) and the franchising filter.
- `Resolver`: which lookup each stage of the cascade issues (the fetch
  directives).
- `Composer`: the effective extra-data table of the submit handler.
- `View`: the render decisions, the result banner and the store mapping done by
  `connect`.
- `TicketForm`: the component as a class. Its fields are the component state.
  Its methods are the handlers. A method returns the remote calls it issues.
  Each response is applied later by its own call, in any order.

The model follows the code in four places where a reader might expect
something else:

- Customer staff (staff, not internal) in an ordinary department might be
  expected to send their department and client. They send no extra field at
  all, because no branch of the submit handler assigns in that case.
- Internal staff in the franchise department send
  `{departmentId, staffClientId}`. The `else if` that produces this is
  reachable.
- A department change does not reset the client or client-user index.
- A late lookup response is never discarded. It overwrites the list whatever
  the selection is by then.

## Model

| member | source | states |
|---|---|---|
| JsCoercion.ParseInt | client/src/app/main/dashboard/dashboard-create-ticket/create-ticket-form.js:162 | `parseInt` is NaN exactly when no digit follows the white space, sign and radix prefix; otherwise its sign follows the scanned sign |
| JsCoercion.IsFranchise | client/src/app/main/dashboard/dashboard-create-ticket/create-ticket-form.js:162 | the franchise test `parseInt(id) === 2` (also at lines 202, 273, 452-456 and 464-468) passes only ids with a digit run and no minus sign |
| JsCoercion.IsFranchiseIff | client/src/app/main/dashboard/dashboard-create-ticket/create-ticket-form.js:162 | `parseInt(id) === 2` holds exactly when the id has no minus sign and its digit run is zeros followed by one '2' (in radix 10, or 16 after `0x`) |
| JsCoercion.ValueTwoIff | client/src/app/main/dashboard/dashboard-create-ticket/create-ticket-form.js:162 | a digit string has value 2 exactly when it is zeros followed by a single '2' |
| JsCoercion.ScanSkipsWhiteSpace | client/src/app/main/dashboard/dashboard-create-ticket/create-ticket-form.js:162 | leading white space does not change what `parseInt` reads |
| JsCoercion.ScanHex | client/src/app/main/dashboard/dashboard-create-ticket/create-ticket-form.js:162 | a `0x` or `0X` prefix makes `parseInt` read hexadecimal digits |
| JsCoercion.FranchiseIdExamples | client/src/app/main/dashboard/dashboard-create-ticket/create-ticket-form.js:162 | "2", " 02", "0x2" and "2abc" select the franchise branches; "12", "-2" and "" do not |
| Entities.At | client/src/app/main/dashboard/dashboard-create-ticket/create-ticket-form.js:231-241 | the lookup by index yields the entry at that index, and `undefined` exactly when the index is past the end |
| Entities.Franchising | client/src/app/main/dashboard/dashboard-create-ticket/create-ticket-form.js:163 | the filtered list holds exactly the session departments flagged `isFranchising`, and no more entries than the input |
| Entities.FranchisingAppend | client/src/app/main/dashboard/dashboard-create-ticket/create-ticket-form.js:163 | the filter distributes over concatenation, so it keeps the original order |
| Entities.FranchisingIdempotent | client/src/app/main/dashboard/dashboard-create-ticket/create-ticket-form.js:163 | filtering twice gives the same list as filtering once |
| Entities.FranchisingKeepsAll | client/src/app/main/dashboard/dashboard-create-ticket/create-ticket-form.js:163 | a list of franchising departments passes the filter unchanged |
| Resolver.Path | client/src/app/main/dashboard/dashboard-create-ticket/create-ticket-form.js:137-229 | the staff and client-user endpoints are called by exactly the staff and client-user lookups |
| Resolver.DataAsForm | client/src/app/main/dashboard/dashboard-create-ticket/create-ticket-form.js:137-229 | data is sent as form data exactly to the two endpoints of the client-user stage, whose handlers store `staffs` or `clientUsers` |
| Resolver.ClientsStageFormData | client/src/app/main/dashboard/dashboard-create-ticket/create-ticket-form.js:155-229 | the call `getClients` leads to sends form data exactly for the franchise department, where the local filter is followed by the client-user lookup |
| Resolver.ResponseKey | client/src/app/main/dashboard/dashboard-create-ticket/create-ticket-form.js:137-229 | each lookup's handler stores a different key of the response: `departments`, `clients`, `staffs` or `clientUsers` |
| Resolver.ClientsDirectiveFor | client/src/app/main/dashboard/dashboard-create-ticket/create-ticket-form.js:159-187 | the franchise department gets the local filter of the session departments and no remote call; any other department gets `/client/get-clients-departments` with its id |
| Resolver.ClientUsersLookupFor | client/src/app/main/dashboard/dashboard-create-ticket/create-ticket-form.js:196-228 | exactly one of two lookups is issued: the staff lookup, with the client's id as department id, exactly for the franchise department and an internal actor; otherwise the client-user lookup with the client's id |
| Resolver.ClientsAfterStage | client/src/app/main/dashboard/dashboard-create-ticket/create-ticket-form.js:162-187 | after the synchronous part of `getClients`, the clients are the filtered session departments for the franchise department and are unchanged otherwise |
| Resolver.ClientsStageLookup | client/src/app/main/dashboard/dashboard-create-ticket/create-ticket-form.js:162-187 | `getClients` issues the remote client lookup, or, after the local filter, the client-user lookup for the filtered entry at the client index; never a department lookup |
| Resolver.FranchiseClientsAreFranchisingDepartments | client/src/app/main/dashboard/dashboard-create-ticket/create-ticket-form.js:162-213 | under the franchise department the selected client is a franchising session department; internal staff then look up its staff, others its client users |
| Composer.ExtraData | client/src/app/main/dashboard/dashboard-create-ticket/create-ticket-form.js:434-484 | for each of the four extra keys: when it is present, and which selected entry's id it carries |
| Composer.NonStaffSendsDepartmentOnly | client/src/app/main/dashboard/dashboard-create-ticket/create-ticket-form.js:478-484 | a non-staff actor sends exactly `{departmentId}`, whatever the client lists hold |
| Composer.InternalFranchiseSendsStaffClient | client/src/app/main/dashboard/dashboard-create-ticket/create-ticket-form.js:437-477 | internal staff in the franchise department send exactly `{departmentId, staffClientId}`, with neither `clientId` nor `clientUserId` |
| Composer.ClientAndStaffClientExclusive | client/src/app/main/dashboard/dashboard-create-ticket/create-ticket-form.js:436-477 | no extra-data map the submit handler builds carries both `clientId` and `staffClientId` |
| Composer.CustomerStaffOrdinaryDepartmentSendsNothing | client/src/app/main/dashboard/dashboard-create-ticket/create-ticket-form.js:434-477 | customer staff in an ordinary department send the empty map |
| View.SelectedLanguage | client/src/app/main/dashboard/dashboard-create-ticket/create-ticket-form.js:542-544 | the language is the configured one exactly when it is supported; otherwise it is the first supported one, and `undefined` only when none is supported |
| View.MapStoreToProps | client/src/app/main/dashboard/dashboard-create-ticket/create-ticket-form.js:539-551 | the single-language flag holds exactly when one language is supported; the lock, attachment and internal flags are taken from the store |
| View.SingleLanguageIsSelected | client/src/app/main/dashboard/dashboard-create-ticket/create-ticket-form.js:542-545 | with a single supported language, the form's language is that language |
| View.DepartmentSelectorShown | client/src/app/main/dashboard/dashboard-create-ticket/create-ticket-form.js:243-246 | staff always get the department selector, anyone does when the default department is not locked, and no one else does |
| View.ClientSelectorNeedsDepartmentSelector | client/src/app/main/dashboard/dashboard-create-ticket/create-ticket-form.js:243-311 | the client and user selectors never appear while the department selector is hidden |
| View.CanRenderClientSelectors | client/src/app/main/dashboard/dashboard-create-ticket/create-ticket-form.js:264-278 | rendering is refused exactly when a department is selected, the actor is not internal and the department is the franchise one |
| View.ClientSelectorsShown | client/src/app/main/dashboard/dashboard-create-ticket/create-ticket-form.js:280-311 | client and user selectors are shown exactly for staff, unless a franchise department is selected by a non-internal actor |
| View.RenderMessage | client/src/app/main/dashboard/dashboard-create-ticket/create-ticket-form.js:389-412 | the success banner exactly for `'success'`, the error banner exactly for `'fail'`, none for anything else |
| View.Render | client/src/app/main/dashboard/dashboard-create-ticket/create-ticket-form.js:79-121 | email, name and captcha are shown exactly to logged-out users; the department selector as `renderDepartments` decides; the client and user selectors together, as `renderClients` and `renderUsers` decide; languages unless only one; file upload when attachments are allowed; the banner `renderMessage` picks |
| View.CustomerStaffFranchiseHidesClientSelectors | client/src/app/main/dashboard/dashboard-create-ticket/create-ticket-form.js:264-311 | customer staff who select the franchise department get no client or user selector |
| TicketForm.CaptchaBlocks | client/src/app/main/dashboard/dashboard-create-ticket/create-ticket-form.js:427 | only a captcha widget with an empty response blocks the submission; a form without a captcha widget is never blocked |
| TicketForm.CreateTicketForm.constructor | client/src/app/main/dashboard/dashboard-create-ticket/create-ticket-form.js:34-53 | the initial state: not loading, no message, empty lists, all indices 0, the mapped language |
| TicketForm.CreateTicketForm.GetDepartments | client/src/app/main/dashboard/dashboard-create-ticket/create-ticket-form.js:137-143 | mounting issues `/department/get-departments` with the actor's staff flag, as JSON |
| TicketForm.CreateTicketForm.GetClientUsers | client/src/app/main/dashboard/dashboard-create-ticket/create-ticket-form.js:190-229 | issues the directive `ClientUsersLookupFor` chooses for the selected department and client, always as form data; state unchanged |
| TicketForm.CreateTicketForm.GetClients | client/src/app/main/dashboard/dashboard-create-ticket/create-ticket-form.js:155-188 | removes `staffClientId`, `clientUserId` and `clientId` from the form; sets the clients and issues the next lookup as the clients directive says |
| TicketForm.CreateTicketForm.ReceiveDepartments | client/src/app/main/dashboard/dashboard-create-ticket/create-ticket-form.js:143-152 | the department response replaces the departments and runs `getClients` on them |
| TicketForm.CreateTicketForm.ReceiveClients | client/src/app/main/dashboard/dashboard-create-ticket/create-ticket-form.js:177-186 | the client response replaces the clients, with no staleness check, and issues the client-user lookup for the client at the current index |
| TicketForm.CreateTicketForm.ReceiveClientUsers | client/src/app/main/dashboard/dashboard-create-ticket/create-ticket-form.js:207-227 | the staff or client-user response replaces the client users, with no staleness check |
| TicketForm.CreateTicketForm.ChangeForm | client/src/app/main/dashboard/dashboard-create-ticket/create-ticket-form.js:59-77 | a new department index empties clients and client users and reloads the clients; a new client index empties only the client users and reloads them; no index changes |
| TicketForm.CreateTicketForm.ComposeExtraData | client/src/app/main/dashboard/dashboard-create-ticket/create-ticket-form.js:434-484 | the overwriting assignments of the submit handler leave exactly the `ExtraData` table's map for the selected entries |
| TicketForm.CreateTicketForm.OnSubmit | client/src/app/main/dashboard/dashboard-create-ticket/create-ticket-form.js:423-493 | an empty captcha blocks: nothing is sent and `loading` is unchanged; otherwise `loading` is set and the values are sent with the extra fields and the captcha |
| TicketForm.CreateTicketForm.OnTicketSuccess | client/src/app/main/dashboard/dashboard-create-ticket/create-ticket-form.js:516-529 | sets `loading=false` and `message='success'`, so the success banner shows; the parent's callback gets the result, email and message |
| TicketForm.CreateTicketForm.OnTicketFail | client/src/app/main/dashboard/dashboard-create-ticket/create-ticket-form.js:531-536 | sets `loading=false` and `message='fail'`, so the error banner shows |

## Left out

- Rendering: the JSX, the `FormField`, `Header`, `Message` and `TextEditor`
  components, and `i18n` labels. `View.Render` keeps only which parts are shown.
- Transport: `API.call` and promise mechanics. Each call is a returned value.
  Each response, or each success and failure of the ticket call, is a later
  method call.
- React's batching of `setState`: the model applies every `setState` at once.
  In React, updates issued inside `componentDidUpdate` are batched. There, the
  `...this.state` spread in `getClients` can restore the old client users until
  the next response. Also, `getClientUsers` called in the same update still
  reads the old clients.
- TicketForm.CreateTicketForm.ChangeForm: does not cover a change of both
  indices at once under an ordinary department. In the sequential reading of
  the code, `getClientUsers` would then read past the end of the client list
  just emptied, and throw.
- Out-of-range index lookups: the code throws on `undefined.id`. Every
  handler instead requires the entries it reads to exist. `isInternalNoRender`
  tests for `undefined` and is modelled in full.
- `SessionStore.getDepartments()` is taken as a list fixed at construction.
- The captcha widget is an optional response string. Its `focus()` call is left
  out.
- The `setState(_.omit(this.state.form, 'staffClientId'))` at line 216 copies
  form fields to the top level of the state. It is modelled as no change.
- The ticket payload is kept as its three parts: values, extra fields and
  captcha. That `_.extend` also mutates the submitted values object is not
  modelled.
- Loose JavaScript coercions become booleans: `isFranchising == 1`,
  `default-is-locked * 1` and `session.isInternal == true`. Ids are strings; a
  numeric id stands for its decimal text.
- The `departments` and `defaultDepartmentId` properties of `connect` are
  never read by the component and are not modelled.
- `showLogs` logging and the commented-out code are left out.
