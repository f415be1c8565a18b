# sources-ui decision logic in Dafny

A model of three pieces of decision logic from the sources console, a
cloud-management UI. The console manages "sources": external connections,
the applications attached to them, and the stored authentications they use.

- **The authentication-selection step** (`SelectAuthenticationStep`). When an
  application is attached to a source, the wizard builds a step named
  `selectAuthentication`. The step always starts with a hidden bootstrap
  field carrying the stored authentication values. If the application
  supports the source type and is not already attached, the step also has one
  sub-form per supported authentication type that has stored values, in the
  order the application declares the types. Each sub-form holds a required
  radio field. Its first option is "define new" (`new-<authtype>`), followed by
  one labelled option per stored value of that type. The step's `nextStep`
  closure is modelled by what it captures (`Routing`) and by `NextStep`.
  Resolving a type's display name throws in the source when the schema has no
  entry for it; here that is an explicit `StepError` result.
- **The provider actions** (`Providers`, with `Events` and `Lifecycle`). Each
  Redux thunk is a pure function from the outcomes of its API calls to a
  `Run`: the objects it dispatches, in order, and the calls it issues.
  Promise timing that changes the order is an explicit `Settle` parameter.
  Where an action reads the store after one of its own dispatches, the
  unseen reducer is a parameter `reduce`. `Lifecycle` is an independent
  reference state machine (IDLE → PENDING → FULFILLED | REJECTED, terminal
  end states). The traces are proved to follow it.
- **Authentication usage in the source edit form**
  (`AuthenticationManagement`). This finds the applications of the source
  that reference an authentication and resolves their application-type
  display names. It builds the "used by …" / "not used by any app" text and
  the `setAuthRemoving` payload. The remove button shows exactly when the
  entry is not being deleted.

Supporting modules: `Wrappers` (Option, Result), `Seqs` (filter, map, count
and join, with order-preservation lemmas), `Js` (truthiness and how a
template literal renders `undefined`), `Catalog` (the records).

Three behaviours of the code worth knowing:

- Inside the generated step, option labels always use the target
  application's display name, because the step passes the application as
  `appType`. The `-unused-<id>` form only arises when
  `generateAuthSelectionOptions` is called without an application type.
- `nextStep` does not guarantee a defined authentication type. When neither
  field shape carries one, the id ends in the text `undefined`.
- `updateSource` reports failure under the literal action type
  `FOOBAR_REJECTED` (`Events.FoobarRejected`), as written.

## Model

| member | source | states |
|---|---|---|
| SelectAuthenticationStep.OptionLabel | src/components/AddApplication/schema/selectAuthenticationStep.js:42-44 | the label starts with the type name; it continues with `-username` when the username is non-empty; it ends in `-<display name>` when an application type is given and in `-unused-<id>` otherwise; its length is exactly the sum of those segments |
| SelectAuthenticationStep.OptionLabelExamples | src/components/AddApplication/schema/selectAuthenticationStep.js:42-44 | concrete labels: `ARN-Cost`, `ARN-unused-5`, `ARN-bob-Cost` |
| SelectAuthenticationStep.GenerateAuthSelectionOptions | src/components/AddApplication/schema/selectAuthenticationStep.js:38-50 | one option per stored value whose authtype is the requested type, and no other: the count equals the number of matching values; every option is a matching value's label and id; every matching value appears |
| SelectAuthenticationStep.GenerateAuthSelectionOptionsConcat | src/components/AddApplication/schema/selectAuthenticationStep.js:38-50 | options keep input order: generating over a concatenation concatenates the results |
| SelectAuthenticationStep.GenerateAuthSelectionOptionsValues | src/components/AddApplication/schema/selectAuthenticationStep.js:38-50 | the option values are exactly the ids of the matching stored values, in input order |
| SelectAuthenticationStep.FindSchema | src/components/AddApplication/schema/selectAuthenticationStep.js:76-77 | `find` returns nothing exactly when no schema entry has the type; otherwise it returns the first entry with that type |
| SelectAuthenticationStep.AuthTypeName | src/components/AddApplication/schema/selectAuthenticationStep.js:76-77 | a missing `schema.authentication` is an error; otherwise the name resolves exactly when some entry has the type, and it is the first such entry's name; no default name is ever produced |
| SelectAuthenticationStep.SubForms | src/components/AddApplication/schema/selectAuthenticationStep.js:72-121 | succeeds exactly when every declared type with stored values has a display name; on success, one sub-form per declared type with stored values; on failure, the error is the first such type's lookup error |
| SelectAuthenticationStep.SubFormsDeclaredOrder | src/components/AddApplication/schema/selectAuthenticationStep.js:70-121 | the sub-forms are the declared types with stored values, filtered then mapped in declaration order |
| SelectAuthenticationStep.SelectAuthentication | src/components/AddApplication/schema/selectAuthenticationStep.js:56-132 | the step is named `selectAuthentication` and its first field is the hidden bootstrap field with the stored values; the field list is exactly that field when the application does not support the source type or is already attached; it fails only for a supported, available application with an unnamed type that has values; otherwise it has 1 + (number of declared types with values) fields |
| SelectAuthenticationStep.SelectAuthenticationFields | src/components/AddApplication/schema/selectAuthenticationStep.js:66-75 | for a supported, available application whose types all resolve, the fields are the bootstrap field followed by the declared-order sub-forms; a missing map entry gives no sub-forms |
| SelectAuthenticationStep.SubFormShape | src/components/AddApplication/schema/selectAuthenticationStep.js:79-119 | each sub-form is named `<app>-subform` and holds exactly two fields: a summary naming the application and the type, then the required radio `selectedAuthentication` titled "Select authentication"; the radio's first option is `new-<authtype>` and its remaining options are exactly the generated options |
| SelectAuthenticationStep.NextStep | src/components/AddApplication/schema/selectAuthenticationStep.js:53-54 | the id is `<source type>-<app id>-` followed by the direct authtype when truthy, else by the nested one (`undefined` when absent) |
| SelectAuthenticationStep.NextStepExamples | src/components/AddApplication/schema/selectAuthenticationStep.js:53-54 | both field shapes route `aws` / `7` / `arn` to `aws-7-arn`; the direct field wins over the nested one |
| AuthenticationManagement.AttachedAppTypes | src/components/SourceEditForm/parser/AuthenticationManagement.js:17-19 | the result is a subsequence of the source's applications (original order), each referencing the authentication id, and it contains every such application |
| AuthenticationManagement.FindAppType | src/components/SourceEditForm/parser/AuthenticationManagement.js:22 | nothing is found exactly when no application type has the id; otherwise the first one with that id |
| AuthenticationManagement.AppNames | src/components/SourceEditForm/parser/AuthenticationManagement.js:21-23 | one name per attached application whose truthy type id resolves, so never more names than attached applications; each name is some application type's display name |
| AuthenticationManagement.AppNamesIsResolvedDisplayNames | src/components/SourceEditForm/parser/AuthenticationManagement.js:21-23 | the names are the resolvable applications, in order, mapped to their type's display name |
| AuthenticationManagement.UsageText | src/components/SourceEditForm/parser/AuthenticationManagement.js:50-59 | the text is `not used by any app` exactly when there are no names; otherwise it is `used by ` followed by every name, in order, joined with `, ` (`Seqs.Join`, pinned by `Seqs.JoinConcat`) |
| AuthenticationManagement.UsageTextAppend | src/components/SourceEditForm/parser/AuthenticationManagement.js:53-54 | one more name extends a non-empty usage sentence by `, ` and that name |
| AuthenticationManagement.UsageTextExamples | src/components/SourceEditForm/parser/AuthenticationManagement.js:50-59 | no names, one name and two names render as `not used by any app`, `used by A` and `used by A, B` |
| Seqs.JoinConcat | src/components/SourceEditForm/parser/AuthenticationManagement.js:54 | `join(', ')` over two non-empty runs of names is their two joins around the separator; with one name joining to itself this determines the joined text |
| AuthenticationManagement.RemovalIntent | src/components/SourceEditForm/parser/AuthenticationManagement.js:25-32 | the `setAuthRemoving` payload carries the authentication, its schema entry, and exactly the computed names: the display names of the attached applications whose type resolves, in order |
| AuthenticationManagement.Render | src/components/SourceEditForm/parser/AuthenticationManagement.js:36-62 | the title is the schema entry's name; the remove button is present exactly when not deleting and, when present, sends the removal intent; the description is `id: <id> ` followed by the usage text of the same names |
| AuthenticationManagement.NotUsedIff | src/components/SourceEditForm/parser/AuthenticationManagement.js:50-59 | the text says "not used by any app" exactly when no application referencing the authentication has a resolvable application type |
| Providers.NormalizeError | src/redux/actions/providers.js:38-41 | the rejection title is fixed; the detail is the error's `detail` when truthy and `data` otherwise, so it is truthy whenever either is |
| Providers.JoinError | src/redux/actions/providers.js:31-41 | the joined requests reject with the only failure, or with the failure that settles first |
| Providers.LoadEntities | src/redux/actions/providers.js:23-42 | PENDING with `optionsPending` comes first; the page and count requests use the store's parameters; when both succeed, SET_COUNT precedes FULFILLED carrying the sources and `options`; any failure ends in REJECTED with the normalised error; every SET_COUNT carries the received count, and there is none when the count fails; after a page failure, a successful count's SET_COUNT appears exactly when the count settles first; only list events are dispatched |
| Providers.LoadEntitiesLifecycle | src/redux/actions/providers.js:23-42 | a load passes through exactly one lifecycle, ending FULFILLED exactly when both requests succeed; it starts one load and enqueues no notification |
| Providers.SortEntitiesAction | src/redux/actions/providers.js:62-69 | the sort update comes first; then exactly the trace and calls of `loadEntities()` with no options on the store as the update left it: page and count requests with that store's parameters and filter, FULFILLED without options |
| Providers.PageAndSizeAction | src/redux/actions/providers.js:71-78 | the paging update comes first; then exactly the trace and calls of `loadEntities()` with no options on the store as the update left it: page and count requests with that store's parameters and filter, FULFILLED without options |
| Providers.ListUpdateReloadsOnce | src/redux/actions/providers.js:62-78 | sort and paging each start exactly one load, which completes its lifecycle, and enqueue no notification |
| Providers.AddMessage | src/redux/actions/providers.js:104-113 | exactly one notification, with the given fields and always dismissable |
| Providers.UpdateSource | src/redux/actions/providers.js:90-102 | the source is patched; success enqueues one dismissable success notification with the title and description; failure dispatches only `FOOBAR_REJECTED` with the error and no notification |
| Providers.RemoveSource | src/redux/actions/providers.js:115-139 | PENDING keyed by the source id comes first; a failed deletion yields exactly PENDING then REJECTED, with no further calls; a successful one is exactly PENDING, the trace of `loadEntities({}, {loaded: true})` on the store after PENDING, FULFILLED, then the success notification; its calls are the deletion followed by exactly that reload's page and count requests |
| Providers.RemoveSourceLifecycle | src/redux/actions/providers.js:115-139 | the removal ends FULFILLED exactly when the deletion succeeds, even if the reload is rejected; on success the reload completes its own lifecycle before FULFILLED |
| Providers.RemoveSourceSucceededLifecycle | src/redux/actions/providers.js:116-131 | after a successful deletion the removal replays PENDING then FULFILLED; the reload between them carries no removal marker |
| Providers.RemoveSourceReloadSettles | src/redux/actions/providers.js:123-131 | after a successful deletion the reload settles its own load lifecycle before the removal is fulfilled |
| Providers.RemoveSourceNotifies | src/redux/actions/providers.js:115-139 | one success notification with the title on success; none on failure |
| Providers.RemoveSourceReloadsOnce | src/redux/actions/providers.js:123-132 | the list is reloaded exactly once on success and never on failure |
| Providers.RemoveApplicationAction | src/redux/actions/providers.js:146-162 | one dispatch with the deferred deletion, `appId`, `sourceId` and notification metadata holding only a dismissable success descriptor for fulfilment: none while pending and none for rejection; nothing is called or enqueued directly |

## Left out

- React rendering is not modelled: PatternFly components, JSX structure and the description components (`AuthTypeSetter`, `SelectAuthenticationDescription`). The fields reference these components only as constructor tags.
- Internationalisation is not modelled. In the authentication step, `intl.formatMessage` values are opaque `Message` constructors. The authentication entry renders its three messages (`sources.removeAuthDescription`, `sources.removeAuthWithApps`, `sources.removeAuthNoApps`) as their default English text.
- The remote API collaborators are foreign I/O. They appear only as `Result` outcomes and as `Call` records.
- Providers.LoadEntities: a SET_COUNT can arrive after a page failure has already rejected the load. When it lands depends on timing, so it is not part of the trace. The stale-response race between overlapping loads is not modelled either.
- Reducers, the promise middleware and the edit form's local reducer are not part of this model. How SORT_ENTITIES and PAGE_AND_SIZE change the store is a parameter. The middleware's execution of the `removeApplication` payload is not modelled.
- `loadSourceTypes` and `loadAppTypes` are left out. They are thin wrappers: PENDING, then FULFILLED with the fetched catalog, with no error handling.
- `filterProviders`, `setProviderFilterColumn`, `addAppToSource`, `undoAddSource`, `clearAddSource` and `removeMessage` are left out. Each builds one action object from its arguments.
- Providers.UpdateSource: `formData` and `errorTitles` go to the collaborator untouched, so they are not modelled.
- lodash `get` path parsing is modelled only as a map lookup with a default; type names containing path syntax are not modelled.
- Exceptions thrown by a reducer during a dispatch inside a promise chain are not modelled. In `removeSource`, for example, such an exception would route to the `catch`.
- Identifiers are strings. A numeric id compared with `===` to a string id is not modelled.
- Options objects other than `{}` and `{loaded: true}` are not modelled.
- AuthenticationManagement takes the source's application list directly. The component throws when `source.source.applications` is absent, and the model does not cover that case.
- Recomputing the step from the same inputs gives the same result because every member is a function, so no idempotence lemma is stated.
