# Mail-service admin front end — a Dafny model

The mail-service admin front end is a single-page CRUD screen over four
record types served by a REST back end: statuses, tasks, recipients and
emails. An email is a scheduled message. It refers to a status (optional),
a task and a list of recipients. This project models the front end's data
shaping and dispatch logic, and proves properties of it:

- **Email read/write contract** (`email_form.dfy`, module `EmailForm`). The
  list endpoint returns an email with its status, task and recipients
  embedded as objects. When the edit modal opens on a row, the form is
  filled with ids instead (`Prefill`). On save, the ids are resolved back
  into objects from the reference lists (`ResolveEmail`). Both directions
  of the round trip are proved: `EditRoundTrip` (read, then write) and
  `FormRoundTrip` (write, then read).
- **The `useHandlers` orchestrator** (`handlers.dfy`, module `Handlers`). A
  class `Screen` holds the hook's state cells. Its methods `ShowCreateModal`,
  `HandleCreate`, `HandleSubmit` and `HandleDelete` take the back end's
  answer as a `backendOk` input. They record the mutation sent, the lists
  refetched, the toast shown and whether the create form was cleared as a
  ghost `Effects` value. Each method is proved equal to a step function
  (`CreateStep`, `SubmitStep`, `DeleteStep`). Those functions state the
  success and failure behaviour in their contracts.
- **The edit-form renderer** (`form_fields.dfy`, module `FormFields`). Each
  column key maps to no field, a status select, a task select, a
  recipients multi-select or a required text input. A form field is a
  value, not an element.
- **The table registry** (`table_configs.dfy`, module `TableConfigs`): the
  four tables, the id comparator, the case-insensitive subject search, the
  search-key entry and the status, task and recipients cell texts.
- **Request builders and cache tags** of the four API modules
  (`status_api.dfy`, `task_api.dfy`, `email_api.dfy`, `recipient_api.dfy`).
  Each endpoint is a function from its argument to a request
  (method, URL, body) and a tag list. Each is proved to follow one
  reference route table (`routes.dfy`, module `Routes`). That table states
  the per-resource differences side by side:
  - trailing slashes differ between resources;
  - only tasks are updated with PUT;
  - a status update sends the argument's `data` property as its body.

  URLs are proved to parse back into their collection and id
  (`Http.ParseRender`, `Routes.RouteUrlParses`), so two ids never share a
  URL (`Routes.ItemUrlsIdentifyIds`).
- **The mounted `App` component** (`app.dfy`, module `App`). It is an older
  variant of the same screen, with three tables, a menu, an edit form of
  plain text inputs and its own email create payload. It is modelled beside
  the hook-based screen as a second `Screen` class.

Supporting modules: `Options` (null as `None`), `Json` (JavaScript values:
objects as maps, truthiness, optional chaining, `String(n)` and `join`),
`Entities` (the four record types and their JSON shapes), `Http` (requests,
URL paths, cache tags) and `Outcomes` (the effects of a handler and the
refetch chain).

Values the source types as `any` are modelled as JSON objects. These are
form values, the current record and request arguments. The form values are
`map<string, Value>`. A missing property reads as `undefined`. The spread
`{...a, ...b}` is map override `a + b`. `({id, ...rest})` is `arg - {"id"}`.

Some JavaScript expressions throw a TypeError: `.map` on a non-array, `.id`
on a null element, `currentRecord.id` with no record. The model returns
`None` or `Throws` there. Inside a handler's `try` these lead to the
handler's error path, as in the source.

Two behaviours of the source are stated as lemmas:

- `Handlers.StatusEditSendsNoBody`: a status edit sends a PATCH with no
  body. `updateStatus` reads the argument's `data` property, and the
  handler spreads the form values without one.
- `App.EmailCreateIgnoresInput`: the mounted component's email create form
  has fields `recipient`, `task_id` and `status_id`. The payload reads
  `id`, `name`, `subject`, `recipients` and others. So every email it posts
  has an empty status, an empty task and no recipients, whatever was typed.

The code and the design description disagree in places. The model follows
the code:

- The email's `recipient_list` is declared as a list of strings
  (`src/features/entities/Email.ts:9`). Every reader treats its elements as
  Recipient objects, so the model does too.
- Task and recipient-list fields carry no `required` rule in the edit form.
- Deleting with no matching table still reports success and closes the
  modal.

## Model

| member | source | states |
|---|---|---|
| `Entities.RecipientValues` | src/features/entities/Email.ts:9 | an email's recipient list as JSON: one object per recipient, in order |
| `EmailForm.IdOrNull` | src/app/hooks/useHandlers.ts:72-73 | `v?.id ?? null` is the embedded object's id when it has a non-null one, and null otherwise |
| `EmailForm.MapIds` | src/app/hooks/useHandlers.ts:74 | mapping `r => r.id` over a list succeeds iff no element is null or undefined, and then gives each element's id in order |
| `EmailForm.Prefill` | src/app/hooks/useHandlers.ts:70-75 | the edit form values are the record with status and task replaced by their ids (null when absent) and recipient_list by the recipients' ids in order ([] when absent); every other property passes through; fails exactly when recipient_list is a non-array or holds a null element |
| `EmailForm.FirstIndex` | src/app/hooks/useHandlers.ts:141 | the position `find` stops at: the first id strictly equal to the chosen one, or none iff no id matches |
| `EmailForm.FindStatus` | src/app/hooks/useHandlers.ts:141 | `statuses.find(s => s.id === id)` is undefined iff no status has that id, and otherwise the first status with it |
| `EmailForm.FindTask` | src/app/hooks/useHandlers.ts:142 | `tasks.find(t => t.id === id)` is undefined iff no task has that id, and otherwise the first task with it |
| `EmailForm.FindRecipient` | src/app/hooks/useHandlers.ts:144 | `recipients.find(r => r.id === id)` is undefined iff no recipient has that id, and otherwise the first recipient with it |
| `EmailForm.FindRecipients` | src/app/hooks/useHandlers.ts:143-145 | the resolved recipients are listed recipients, never more than the ids, and exactly one per id, in id order, iff every id matches |
| `EmailForm.FindRecipientsOne` | src/app/hooks/useHandlers.ts:143-145 | one id resolves to its first matching recipient, or to nothing when none matches |
| `EmailForm.FindRecipientsAppend` | src/app/hooks/useHandlers.ts:143-145 | resolving two id lists one after the other gives the two results one after the other, so the result is fixed id by id |
| `EmailForm.FindRecipientsSkipsUnmatched` | src/app/hooks/useHandlers.ts:143-145 | an id no recipient matches is dropped by `filter(Boolean)` without disturbing the others |
| `EmailForm.ResolveStatus` | src/app/hooks/useHandlers.ts:141 | a falsy status id (absent, null, 0) resolves to null; any other id to the first listed status with it |
| `EmailForm.ResolveTask` | src/app/hooks/useHandlers.ts:142 | a falsy task id resolves to null; any other id to the first listed task with it |
| `EmailForm.ResolveRecipientList` | src/app/hooks/useHandlers.ts:143-145 | an absent or null list becomes null, an empty list stays empty, an array is resolved id by id, and a non-array throws |
| `EmailForm.ResolveEmail` | src/app/hooks/useHandlers.ts:139-146 | the email write payload: every other form property passes through unchanged, status/task/recipient_list are resolved; fails exactly when recipient_list is neither nullish nor an array |
| `EmailForm.Prefilled` | src/app/hooks/useHandlers.ts:74 | the ids a recipient list shows in the edit form, one per recipient, in order |
| `EmailForm.RecipientIdsOf` | src/app/hooks/useHandlers.ts:74 | reading the ids of an email's embedded recipients never throws and gives their ids in order |
| `EmailForm.PrefillEmail` | src/app/hooks/useHandlers.ts:68-77 | an email row fills the edit form with its own properties and the ids of its status, task and recipients |
| `EmailForm.FirstIndexOfListed` | src/app/hooks/useHandlers.ts:141 | with unique ids, `find` on a listed element's id stops at that element |
| `EmailForm.FindListedRecipients` | src/app/hooks/useHandlers.ts:184-186 | with unique ids, resolving the ids of listed recipients gives back exactly those recipients, in order |
| `EmailForm.ResolvedStatus` | src/app/hooks/useHandlers.ts:182 | with unique ids, a listed status is found again by its id |
| `EmailForm.ResolvedTask` | src/app/hooks/useHandlers.ts:183 | with unique ids, a listed task is found again by its id |
| `EmailForm.ResolveIds` | src/app/hooks/useHandlers.ts:180-187 | form values holding an email's ids resolve to the email's own status, task and recipients, whatever other properties they hold |
| `EmailForm.ResolveFormIds` | src/app/hooks/useHandlers.ts:180-187 | the three ids alone resolve to the email's own status, task and recipients |
| `EmailForm.ResolvedReferences` | src/app/hooks/useHandlers.ts:180-187 | resolving an email's prefilled values overwrites the three id properties with the email's own objects |
| `EmailForm.ResolveEmailFormValues` | src/app/hooks/useHandlers.ts:180-187 | resolving an email's edit-form values gives back the email row exactly |
| `EmailForm.EditRoundTrip` | src/app/hooks/useHandlers.ts:70-75 | round trip read→write: an email whose status, task and recipients are listed under unique non-zero ids prefills the form, and resolving that form gives back the email exactly |
| `EmailForm.StatusIdBack` | src/app/hooks/useHandlers.ts:72 | a null or listed non-zero status id survives resolving and re-reading its id |
| `EmailForm.TaskIdBack` | src/app/hooks/useHandlers.ts:73 | a null or listed non-zero task id survives resolving and re-reading its id |
| `EmailForm.RecipientIdsBack` | src/app/hooks/useHandlers.ts:74 | recipient ids that all match survive resolving and re-reading their ids, in order |
| `EmailForm.PrefillBack` | src/app/hooks/useHandlers.ts:70-75 | a payload agreeing with form values except for resolved references prefills exactly those form values |
| `EmailForm.FormRoundTrip` | src/app/hooks/useHandlers.ts:139-146 | round trip write→read: form values with null-or-listed non-zero status/task ids and listed recipient ids resolve to a payload that prefills the same values |
| `EmailForm.OverrideTwice` | src/app/hooks/useHandlers.ts:180-181 | overriding with one object and then with one covering its keys equals overriding with the second alone |
| `EmailForm.OverrideSame` | src/app/hooks/useHandlers.ts:180-181 | spreading properties an object already has, with the same values, leaves it unchanged |
| `EmailForm.OverrideCovered` | src/app/hooks/useHandlers.ts:180-181 | spreading an object over one with fewer keys gives the spread object |
| `Outcomes.TableOf` | src/app/hooks/useHandlers.ts:108-111 | exactly the four table names denote a resource, each its own collection |
| `Outcomes.TableOfCollectionName` | src/app/hooks/useHandlers.ts:108-111 | every resource's collection name is the table name that denotes it |
| `Outcomes.ActiveRefetch` | src/app/hooks/useHandlers.ts:108-111 | the refetch chain refetches the active table's own list and nothing else, and nothing when no table matches |
| `Outcomes.UpdateArgument` | src/app/hooks/useHandlers.ts:171 | `{ id: currentRecord.id, ...values }` has the values' properties plus id, and the record's id only when the values have none |
| `Handlers.ResourceOfType` | src/app/hooks/useHandlers.ts:125-138 | an item type names the resource it creates, and only the four item types name one |
| `Handlers.IdOf` | src/app/hooks/useHandlers.ts:94 | `currentRecord.id` throws iff there is no current record |
| `Handlers.Payload` | src/app/hooks/useHandlers.ts:125-145 | what a create sends: the form's values for every resource but emails; for an email, nothing (a throw) iff recipient_list is neither nullish nor an array, else the values with status, task and recipient_list resolved and every other property passed through |
| `Handlers.ShowCreateStep` | src/app/hooks/useHandlers.ts:80-87 | the create modal opens and the create form is cleared; on one of the four tables the item type is the one that creates that table's records, elsewhere it is kept; nothing else changes |
| `Handlers.NewItemType` | src/app/hooks/useHandlers.ts:81-84 | the four tables map to status/task/email/recipient; any other active table leaves the item type unchanged |
| `Handlers.CreateCall` | src/app/hooks/useHandlers.ts:125-150 | create dispatch: no call for an unknown item type, a throw iff an email's recipients cannot be resolved, otherwise the resource's own create request and tags with the (resolved) payload |
| `Handlers.CreateStep` | src/app/hooks/useHandlers.ts:122-163 | on failure (validation, resolving, back end) an error is reported and state is unchanged; otherwise the create modal closes, the form is cleared and only the active table's list is refetched |
| `Handlers.DeleteCall` | src/app/hooks/useHandlers.ts:92-105 | delete dispatch: no call outside the four tables, a throw without a record, otherwise the table's delete request on the record's id |
| `Handlers.DeleteStep` | src/app/hooks/useHandlers.ts:90-119 | on failure the edit modal stays and an error is reported; otherwise it closes, success is reported and only the active table's list is refetched |
| `Handlers.UpdateCall` | src/app/hooks/useHandlers.ts:169-190 | update dispatch: the table's update request and tags on the record's id merged with the (email-resolved) values; a throw iff an email's recipients cannot be resolved |
| `Handlers.UpdateRefetch` | src/app/hooks/useHandlers.ts:196-199 | after an update, an email table refetches all four lists, any other table at most its own |
| `Handlers.SubmitStep` | src/app/hooks/useHandlers.ts:166-204 | no current record: no call and no change; failure: error reported, modal stays; success: modal closes and the update's lists are refetched |
| `Handlers.Synced` | src/app/hooks/useHandlers.ts:68-77 | the form is prefilled only while the edit modal is open on a record, with that record's prefilled values |
| `Handlers.ShowCreateThenCreate` | src/app/hooks/useHandlers.ts:80-158 | opening the create form on a table and creating successfully posts to that table's collection and refetches that table alone |
| `Handlers.StatusEditSendsNoBody` | src/app/hooks/useHandlers.ts:173-174 | a status edit whose values have no `data` property sends a PATCH with no body |
| `Handlers.DeleteTargetsCurrentRecord` | src/app/hooks/useHandlers.ts:90-114 | a successful delete sends DELETE to the current record's own URL and refetches that table |
| `Handlers.EmailIdsUpdate` | src/app/hooks/useHandlers.ts:179-188 | saving an email's ids sends a PATCH of the email's own references to its URL |
| `Handlers.SyncedEmailIds` | src/app/hooks/useHandlers.ts:68-77 | once prefilled from an email, the form's reference fields hold exactly that email's ids |
| `Handlers.UnchangedEmailEdit` | src/app/hooks/useHandlers.ts:179-198 | editing an email and saving unchanged writes back its own status, task and recipients to its URL and refetches all four lists |
| `Handlers.Screen.constructor` | src/app/hooks/useHandlers.ts:54-60 | the screen starts with no table, both modals closed, no item type and no record |
| `Handlers.Screen.SetActiveTable` | src/app/hooks/useHandlers.ts:54 | sets the active table and nothing else |
| `Handlers.Screen.SetModalVisible` | src/app/hooks/useHandlers.ts:55 | sets the edit modal's visibility and nothing else |
| `Handlers.Screen.SetCreateModalVisible` | src/app/hooks/useHandlers.ts:56 | sets the create modal's visibility and nothing else |
| `Handlers.Screen.SetNewItemType` | src/app/hooks/useHandlers.ts:57 | sets the item type and nothing else |
| `Handlers.Screen.SetCurrentRecord` | src/app/hooks/useHandlers.ts:60 | sets the current record and nothing else |
| `Handlers.Screen.SyncEditForm` | src/app/hooks/useHandlers.ts:68-77 | the prefill effect changes only the edit form, as `Synced` says |
| `Handlers.Screen.ShowCreateModal` | src/app/hooks/useHandlers.ts:80-87 | picks the item type by `NewItemType`, always opens the create modal and clears the create form |
| `Handlers.Screen.RefetchActive` | src/app/hooks/useHandlers.ts:108-111 | the refetch chain's result is the active table's list alone |
| `Handlers.Screen.HandleDelete` | src/app/hooks/useHandlers.ts:90-119 | new state and effects are those of `DeleteStep` |
| `Handlers.Screen.HandleCreate` | src/app/hooks/useHandlers.ts:122-163 | new state and effects are those of `CreateStep` |
| `Handlers.Screen.HandleSubmit` | src/app/hooks/useHandlers.ts:166-204 | new state and effects are those of `SubmitStep` |
| `FormFields.KindOf` | src/app/renderForm/renderFormFields.tsx:24-112 | id/created_at/send_at get no field, status/task/recipient_list their selects, every other key a text input (each case iff) |
| `FormFields.RecipientOptions` | src/app/renderForm/renderFormFields.tsx:92-96 | one option per recipient, in order, value = id and label = address |
| `FormFields.FieldFor` | src/app/renderForm/renderFormFields.tsx:23-113 | a column's field: named by the key, labelled by the title; selects carry no rule, text inputs exactly the required-field rule; option values are exactly the listed ids in order |
| `FormFields.RenderFormFields` | src/app/renderForm/renderFormFields.tsx:21-114 | nothing without a table or a record; otherwise one entry per column, in column order |
| `FormFields.FieldNames` | src/app/renderForm/renderFormFields.tsx:32 | the form properties registered are exactly the names of the fields produced |
| `FormFields.EmailFormFields` | src/app/renderForm/renderFormFields.tsx:28-101 | the email table's form is exactly the status, task and recipients selects, with no field for id or send date |
| `FormFields.PlainTablesHaveTextFields` | src/app/renderForm/renderFormFields.tsx:103-112 | every field of the status, task and recipient tables is a required text input |
| `TableConfigs.Registry` | src/app/hooks/useTableConfigs.tsx:16-109 | exactly the four tables, each bound to its own list and opening with the id column; only the task subject is searchable |
| `TableConfigs.CurrentTable` | src/app/hooks/useHandlers.ts:61 | the current table is the registry's entry for a non-empty active table, and none otherwise |
| `TableConfigs.Compare` | src/app/hooks/useTableConfigs.tsx:20 | `a.id - b.id` is negative, zero or positive exactly as a's id is below, equal to or above b's |
| `TableConfigs.CompareSwap` | src/app/hooks/useTableConfigs.tsx:29 | the comparator is antisymmetric: swapping the rows negates it |
| `TableConfigs.LowerChar` | src/app/hooks/useTableConfigs.tsx:54 | `toLowerCase` on one Latin or Russian letter; every other character is unchanged |
| `TableConfigs.Lower` | src/app/hooks/useTableConfigs.tsx:54 | lower-casing a string lower-cases each character and keeps the length |
| `TableConfigs.LowerIdempotent` | src/app/hooks/useTableConfigs.tsx:54 | lower-casing twice is lower-casing once |
| `TableConfigs.LowerSlice` | src/app/hooks/useTableConfigs.tsx:54 | lower-casing commutes with slicing |
| `TableConfigs.Includes` | src/app/hooks/useTableConfigs.tsx:54 | `s.includes(sub)` iff `sub` occurs in `s` at some position |
| `TableConfigs.LowerOccurrence` | src/app/hooks/useTableConfigs.tsx:54 | the search text occurs in the lower-cased subject iff some slice of the subject equals it ignoring case |
| `TableConfigs.SubjectFilter` | src/app/hooks/useTableConfigs.tsx:53-54 | a task row is kept iff some slice of its subject equals the search text ignoring case |
| `TableConfigs.SubjectFilterIgnoresCase` | src/app/hooks/useTableConfigs.tsx:53-54 | the subject search gives the same answer for lower-cased search text or subject |
| `TableConfigs.SubjectFilterKeepsContaining` | src/app/hooks/useTableConfigs.tsx:53-54 | a row whose subject contains the search text is kept |
| `TableConfigs.SubjectFilterLength` | src/app/hooks/useTableConfigs.tsx:53-54 | a kept row's subject is at least as long as the search text |
| `TableConfigs.FilterKeys` | src/app/hooks/useTableConfigs.tsx:39 | a non-empty input sets the keys to `[value]`, an empty one to `[]` |
| `TableConfigs.StatusCell` | src/app/hooks/useTableConfigs.tsx:84 | the status cell shows the name, or "Не указан" when the status is null or its name empty; never empty |
| `TableConfigs.Addresses` | src/app/hooks/useTableConfigs.tsx:96 | the recipients' addresses, one per recipient, in order |
| `TableConfigs.TaskCell` | src/app/hooks/useTableConfigs.tsx:90 | `task.subject`: throws iff the task is null or undefined, and is the subject property of an object |
| `TableConfigs.TaskCellOfEmail` | src/app/hooks/useTableConfigs.tsx:90 | an email's task cell shows its task's subject |
| `TableConfigs.RecipientsCell` | src/app/hooks/useTableConfigs.tsx:96 | never empty; "Нет получателей" with no recipients; otherwise starts with the first address when it is non-empty |
| `TableConfigs.RecipientsCellShape` | src/app/hooks/useTableConfigs.tsx:96 | the recipients cell shows the addresses joined by ", " in order, or "Нет получателей" exactly when that join is empty; never empty |
| `Json.Member` | src/app/hooks/useHandlers.ts:94 | reading a property throws iff the value is null or undefined |
| `Json.OptionalMember` | src/app/hooks/useHandlers.ts:72 | `v?.k` is undefined on null/undefined and the property on an object |
| `Json.Restrict` | src/app/renderForm/renderFormFields.tsx:32 | the values a form hands over are exactly its registered properties |
| `Json.JoinEmptyIff` | src/app/hooks/useTableConfigs.tsx:96 | a join with a non-empty separator is empty iff there are no pieces or one empty piece |
| `Json.JoinStartsWithFirst` | src/app/hooks/useTableConfigs.tsx:96 | a join of at least one piece starts with its first piece |
| `Json.JoinLength` | src/app/hooks/useTableConfigs.tsx:96 | a join's length is the pieces' lengths plus one separator between each two |
| `Json.IntToStringShape` | src/features/api/statusApi.ts:15 | `${id}` of an integer is non-empty, holds no '/', and starts with '-' iff negative |
| `Json.IntToStringInjective` | src/features/api/statusApi.ts:15 | different ids have different decimal texts |
| `Json.NatToStringInjective` | src/features/api/statusApi.ts:15 | different naturals have different decimal texts |
| `Json.NatToStringDigits` | src/features/api/statusApi.ts:15 | a natural's decimal text is non-empty and all digits |
| `Http.FirstSlash` | src/features/api/emailApi.ts:14 | the position of the first '/' of a URL, or none iff it has none |
| `Http.FirstSlashAfter` | src/features/api/emailApi.ts:14 | a URL built as collection + "/" + rest has its first '/' right after the collection name |
| `Http.ParseRender` | src/features/api/emailApi.ts:14 | every collection or item URL reads back as its collection, id and trailing-slash choice |
| `Http.ItemTags` | src/features/api/statusApi.ts:10 | one `{type, id}` tag per listed element, in list order |
| `Http.ListTags` | src/features/api/statusApi.ts:8-11 | a list provides one tag per element in order plus the general tag, or only the general tag without a result |
| `Http.ListTagsContents` | src/features/api/statusApi.ts:8-11 | a list provides the tag of an id iff it lists a record with that id; all its tags are of its own kind |
| `Routes.RouteUrlParses` | src/features/api/taskApi.ts:14-36 | every route's URL parses back as its collection and, for item endpoints, the decimal id with the route's trailing slash |
| `Routes.ItemUrlsIdentifyIds` | src/features/api/statusApi.ts:36 | two different ids never share an item URL |
| `Routes.OnlyTaskUpdateIsPut` | src/features/api/taskApi.ts:28 | a task update is a PUT and every other update a PATCH |
| `Routes.MutationTagsHitList` | src/features/api/statusApi.ts:32 | an update invalidates a listed tag iff the list holds the updated id; create and delete invalidate the general tag every list provides |
| `StatusApi.GetStatuses` | src/features/api/statusApi.ts:6-12 | GET `statuses/` providing the list tags of its result |
| `StatusApi.GetStatusById` | src/features/api/statusApi.ts:13-16 | GET `statuses/{id}` with no trailing slash, providing exactly `{Status, id}` |
| `StatusApi.CreateStatus` | src/features/api/statusApi.ts:17-24 | POST of the body to `statuses/`, invalidating `Status` |
| `StatusApi.UpdateStatus` | src/features/api/statusApi.ts:26-33 | PATCH `statuses/{id}/` whose body is the argument's `data` property, invalidating only `{Status, id}` |
| `StatusApi.DeleteStatus` | src/features/api/statusApi.ts:34-40 | DELETE `statuses/{id}` with no trailing slash, invalidating `Status` |
| `TaskApi.GetTasks` | src/features/api/taskApi.ts:6-12 | GET `tasks/` providing the list tags of its result |
| `TaskApi.GetTaskById` | src/features/api/taskApi.ts:13-16 | GET `tasks/{id}` with no trailing slash, providing exactly `{Task, id}` |
| `TaskApi.CreateTask` | src/features/api/taskApi.ts:17-24 | POST of the body to `tasks/`, invalidating `Task` |
| `TaskApi.UpdateTask` | src/features/api/taskApi.ts:25-32 | PUT `tasks/{id}/` of the argument less `id`, invalidating only `{Task, id}` |
| `TaskApi.DeleteTask` | src/features/api/taskApi.ts:33-39 | DELETE `tasks/{id}/` with a trailing slash, invalidating `Task` |
| `EmailApi.GetEmails` | src/features/api/emailApi.ts:6-12 | GET `emails/` providing the list tags of its result |
| `EmailApi.GetEmailById` | src/features/api/emailApi.ts:13-16 | GET `emails/{id}/` with a trailing slash, providing exactly `{Email, id}` |
| `EmailApi.CreateEmail` | src/features/api/emailApi.ts:17-24 | POST of the body to `emails/`, invalidating `Email` |
| `EmailApi.UpdateEmail` | src/features/api/emailApi.ts:25-32 | PATCH `emails/{id}/` of the argument less `id`, invalidating only `{Email, id}` |
| `EmailApi.DeleteEmail` | src/features/api/emailApi.ts:33-39 | DELETE `emails/{id}/`, invalidating `Email` |
| `RecipientApi.GetRecipients` | src/features/api/recipientApi.ts:6-12 | GET `recipients/` providing the list tags of its result |
| `RecipientApi.GetRecipientById` | src/features/api/recipientApi.ts:13-16 | GET `recipients/{id}` with no trailing slash, providing exactly `{Recipient, id}` |
| `RecipientApi.CreateRecipient` | src/features/api/recipientApi.ts:17-24 | POST of the body to `recipients/`, invalidating `Recipient` |
| `RecipientApi.UpdateRecipient` | src/features/api/recipientApi.ts:25-32 | PATCH `recipients/{id}/` of the argument less `id`, invalidating only `{Recipient, id}` |
| `RecipientApi.DeleteRecipient` | src/features/api/recipientApi.ts:33-39 | DELETE `recipients/{id}/`, invalidating `Recipient` |
| `App.AppRegistry` | src/app/App.tsx:65-145 | exactly the statuses, tasks and emails tables, each bound to its own list; no column filters rows |
| `App.JoinTexts` | src/app/App.tsx:140 | how `join` writes each element: null/undefined as "", others as `String(v)` |
| `App.AppRecipientsCell` | src/app/App.tsx:140 | never empty; "Нет получателей" for an empty list; otherwise starts with the first element's `join` text when that is non-empty |
| `App.AppRecipientsCellHidesAddresses` | src/app/App.tsx:140 | the component's recipients cell writes "[object Object]" per recipient, whatever the addresses, or "Нет получателей" for none |
| `App.IsLoading` | src/app/App.tsx:239 | not loading iff none of the three lists is loading |
| `App.AppFormFields` | src/app/App.tsx:241-258 | nothing without table and record; otherwise per column no field for `id` and a required text input for every other key |
| `App.AppEmailEditFields` | src/app/App.tsx:241-258 | the email edit form edits send_at, status, task and `recipients` as text, and has no `recipient_list` field |
| `App.MenuItemClick` | src/app/App.tsx:147-150 | the chosen table becomes active and the menu closes; nothing else changes |
| `App.NewItemType` | src/app/App.tsx:153-156 | statuses/tasks/emails map to status/task/email; any other table (recipients too) leaves the item type unchanged |
| `App.ShowCreateStep` | src/app/App.tsx:153-159 | the create modal opens and the create form is cleared; statuses/tasks/emails pick status/task/email, recipients keeps the old item type; nothing else changes |
| `App.MenuTablesCreate` | src/app/App.tsx:266-268 | every menu entry, once chosen, gives the create form an item type; the menu closes |
| `App.EmailPayload` | src/app/App.tsx:175-187 | the email body: status.id and task.id both from `values.id`; recipient_list is `values.recipients`, or [] when falsy |
| `App.EmailPayloadIgnoresCreateForm` | src/app/App.tsx:342-353 | a form holding only recipient/task_id/status_id yields the same body for every input |
| `App.CreateCall` | src/app/App.tsx:165-191 | create dispatch for status, task and email (with `EmailPayload`); no call for any other item type; never throws |
| `App.CreateStep` | src/app/App.tsx:162-205 | on failure an error is reported and nothing changes; otherwise the create modal closes, the form is cleared and only the active table's list is refetched |
| `App.EmailCreateIgnoresInput` | src/app/App.tsx:174-188 | creating an email from the create form posts to `emails/` the body of an empty form, whatever was typed |
| `App.UpdateCall` | src/app/App.tsx:212-222 | update dispatch on the record's id merged with the raw form values, for the three tables only |
| `App.SubmitStep` | src/app/App.tsx:208-236 | no current record: no call; failure: error, modal stays; success: modal closes and only the active table's list is refetched |
| `App.OpenRecordStep` | src/app/App.tsx:284-289 | a double-clicked row becomes the current record, the edit modal opens and the row's properties are written over the form unflattened; nothing else changes |
| `App.EditFieldNames` | src/app/App.tsx:241-258 | the edit form registers one name per column key but `id`, and none without a table and a record |
| `App.EditFieldNamesAre` | src/app/App.tsx:241-258 | a table opening with the id column registers exactly its other columns' keys |
| `App.AppEditFieldNames` | src/app/App.tsx:241-258 | the statuses form edits name and description; tasks subject, body and created_at; emails send_at, status, task and recipients |
| `App.StatusEditFieldNames` | src/app/App.tsx:241-258 | the statuses edit form registers name and description |
| `App.TaskEditFieldNames` | src/app/App.tsx:241-258 | the tasks edit form registers subject, body and created_at |
| `App.EmailEditFieldNames` | src/app/App.tsx:241-258 | the emails edit form registers send_at, status, task and recipients |
| `App.SaveStep` | src/app/App.tsx:300-310 | with a required field empty nothing happens; otherwise `handleSubmit` gets the registered fields' values only; a sent update has a record and every registered field filled, never the id |
| `App.EmptyFieldBlocksSave` | src/app/App.tsx:250-253 | a registered field holding undefined, null, "" or [] fails its `required` rule, so the save sends nothing and changes nothing |
| `App.SaveSendsUpdate` | src/app/App.tsx:208-222 | saving on a table with an update endpoint sends iff every registered field is filled, and then the record's update by id with the registered values, refetching that table and closing the modal |
| `App.RestrictAfterOpen` | src/app/App.tsx:288 | after a row is written over the form, the form's values for the row's own properties are the row's |
| `App.OpenThenSaveUnchanged` | src/app/App.tsx:284-310 | opening a status or task row and saving unchanged sends iff every edited property is filled, and then the row's update by id with the edited columns' values (the row's own when it has them), refetching its table |
| `App.OpenEmailThenSaveSendsNothing` | src/app/App.tsx:241-310 | email rows lack the required `recipients` field, so opening one and saving it sends nothing and leaves the modal open |
| `App.Screen.constructor` | src/app/App.tsx:26-33 | the component starts with the menu closed, no table, both modals closed, no item type and no record |
| `App.Screen.ToggleMenu` | src/app/App.tsx:263 | the menu button flips the menu and changes nothing else |
| `App.Screen.HandleMenuItemClick` | src/app/App.tsx:147-150 | sets the active table and closes the menu |
| `App.Screen.ShowCreateModal` | src/app/App.tsx:153-159 | picks the item type by `App.NewItemType` and always opens the create modal |
| `App.Screen.CancelEdit` | src/app/App.tsx:295-297 | closes the edit modal without a call |
| `App.Screen.CancelCreate` | src/app/App.tsx:316 | closes the create modal without a call |
| `App.Screen.OpenRecord` | src/app/App.tsx:284-289 | new state is that of `OpenRecordStep` |
| `App.Screen.RefetchActive` | src/app/App.tsx:197-199 | the refetch chain's result is the active table's list, among the three the component can refetch |
| `App.Screen.HandleCreate` | src/app/App.tsx:162-205 | new state and effects are those of `App.CreateStep` |
| `App.Screen.HandleSubmit` | src/app/App.tsx:208-236 | new state and effects are those of `App.SubmitStep` |
| `App.Screen.Save` | src/app/App.tsx:300-310 | new state and effects are those of `App.SaveStep` |

## Left out

- Rendering: JSX, antd layout, modals, menu CSS classes, option label markup and the search dropdown's visuals. A form field and a column are values.
- RTK Query's fetching, caching, tag matching and refetch machinery; `async`/`await` and `.unwrap()`. Every back-end call is a `backendOk` input, and the refetched lists, the mutation sent and the toast are recorded as ghost effects.
- `message.success`/`message.error` and `console.error` are recorded as a `Notice`, not performed.
- antd form validation of the create forms (`validateFields`, `required`, the `type: 'email'` rule): the create handlers take the validated values as an input that is `None` when validation fails. The component's edit form, whose fields are all required text inputs, is validated in the model (`App.Filled`: anything but undefined, null, the empty string and the empty array passes).
- `Json.Value`: numbers are unbounded integers. JavaScript numbers are doubles, exact only up to 2^53, with fractions, NaN and the exponent form `String()` uses from 1e21; ids, timestamps and the comparator's subtraction are modelled as exact integers.
- Date handling: `toLocaleString` and the `created_at` sorter. Timestamps are integer milliseconds; the date renderer is only named (`LocaleDate`).
- `TableConfigs.LowerChar`: only Latin and Russian letters are lower-cased; the rest of Unicode case mapping is not modelled.
- `TableConfigs.Compare`: `a.id - b.id` on non-numeric ids gives NaN in the source; the model returns no comparison there.
- The search dropdown's buttons: in the mounted component they pass `confirm` without calling it (src/app/App.tsx:89, 94), and the component's subject column has no `onFilter`; the model records only that the column has a search box that filters nothing.
- The prefill effect's TypeError (a recipient_list that is not an array) is not caught in the source; the model leaves the form unchanged in that case.
- src/app/hooks/useTableData.ts is not part of this model: it only defaults each list to `[]` and ORs the loading flags (the mounted component's own OR is `App.IsLoading`).
- Bootstrapping and wiring (src/index.tsx, src/app/store.ts, the router, the spinner) and the unregistered slice reducer are not part of this model.
