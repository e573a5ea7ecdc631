# Task manager core, modelled in Dafny

This project models the logic of a small task manager. The front end is
written in Next.js with two interchangeable themes (Material UI and ShadCN),
and the back end is a mock REST server built on json-server. The model covers:

- how tasks are filtered, both in the local Zustand store and in the
  query-side pipeline of the `useTasks` hook;
- the shared filter cell (`FilterContext`) and the filter panel that writes it;
- the zod form schema, with its select options and mock users;
- the server's validation, authentication and error middleware;
- the HTTP client, with `handleApiError`, its headers and its routing table;
- the `{ success, data, error }` envelopes of the use-case layer;
- the user lookup;
- what a task card and the quick assignee selector compute;
- the theme provider.

Dafny modules, one per source file:

- `Types` models `types/task.ts`: the entities, the enumerations and the filter record.
- `TaskStore` models `store/useTaskStore.ts`. The store is a class; `filterTasks` is a function.
- `QueryFilter` models `hooks/useTasks.ts`: the staged pipeline as methods, plus the count.
- `FilterState` models `context/FilterContext.tsx`, as a class.
- `FilterControls` models `components/tasks/TaskFilters.tsx`.
- `TaskSchema` models `lib/validation/task-schema.ts`.
- `JsonServer` models `backend/json-server.js`.
- `ApiService` models `services/api/apiService.ts`.
- `TaskUseCases` models `services/useCases/taskUseCases.ts`.
- `Users` models `hooks/useUsers.ts`.
- `TaskCard` models `components/tasks/TaskCard.tsx`.
- `AssigneeSelector` models `components/tasks/TaskAssigneeSelector.tsx`.
- `Theme` models `theme/ThemeContext.tsx`, as a class.

Four helper modules carry no source file of their own:

- `Wrappers` holds `Option` and `Result`.
- `JsText` holds the JavaScript string operations the code relies on:
  - `trim` over the full ECMAScript white-space set;
  - ASCII `toLowerCase`/`toUpperCase`;
  - `includes`, `split`/`join`;
  - decimal `toString`, and `Number` on strings.
- `Seqs` holds a generic `Array.filter` with its subsequence, composition and
  idempotence lemmas.

Modelling conventions:

- Dates are integer timestamps.
- Generated ids and "now" are parameters.
- A settled `fetch` or API call is a parameter.
- Browser storage and the document attribute are fields of the theme provider.

Where the code's behaviour is easy to misread, the model follows the code:

- `handleApiError` always rejects with `Erreur API: <status>`. The error built
  from the body's `message` is thrown inside the `try` and replaced by the
  `catch` (apiService.ts:24-30).
- `setFilter` is the React state setter itself. A partial object replaces the
  whole filter rather than being merged into it (FilterContext.tsx:16, 34).
- `fetchTasks` stores the mock list as `filteredTasks` without filtering it
  (see Findings).
- The validation middleware runs before anything that parses the request body,
  since `jsonServer.defaults()` and the router are registered after it
  (json-server.js:20-62). So `req.body` is unset when it is destructured at
  json-server.js:22, and every task creation throws into the 500 handler
  (see Findings). `JsonServer.Serve` is the server as configured. The 400
  replies belong to `JsonServer.ServeParsedFirst`, the chain with the body
  parsed before the validation.

## Model

| member | source | states |
|---|---|---|
| Types.ParseStatus | frontend/src/types/task.ts:7 | a text is read as a status only when it is that status's literal |
| Types.ParsePriority | frontend/src/types/task.ts:5 | a text is read as a priority only when it is that priority's literal |
| Types.StatusRoundTrip | frontend/src/types/task.ts:7 | every status literal reads back as the same status |
| Types.PriorityRoundTrip | frontend/src/types/task.ts:5 | every priority literal reads back as the same priority |
| Types.StatusesEnumerated | frontend/src/types/task.ts:7 | there are exactly five statuses and the enumeration lists each once |
| Types.PrioritiesEnumerated | frontend/src/types/task.ts:5 | there are exactly four priorities and the enumeration lists each once |
| Types.DefinedKeys | frontend/src/types/task.ts:61-71 | a filter has at most eight keys, and none exactly when it is the empty record, which is itself a filter |
| TaskStore.FilterTasks | frontend/src/store/useTaskStore.ts:241-273 | a task is in the result iff it is in the input and passes every dimension |
| TaskStore.FilterTasksIsSubsequence | frontend/src/store/useTaskStore.ts:241-273 | the result is a subsequence of the input, in the original order |
| TaskStore.NoFiltersKeepAll | frontend/src/store/useTaskStore.ts:241-273 | with every filter `null` the result is the whole input |
| TaskStore.FilterTasksIdempotent | frontend/src/store/useTaskStore.ts:241-273 | filtering the result again changes nothing |
| TaskStore.AssigneeFilterExact | frontend/src/store/useTaskStore.ts:249-256 | `'unassigned'` keeps exactly the tasks with a falsy assignee id; any other id keeps exactly the tasks with that id |
| TaskStore.SearchFilterExact | frontend/src/store/useTaskStore.ts:257-263 | a search keeps exactly the tasks whose lower-cased title or description contains the lower-cased, untrimmed query |
| TaskStore.DueDateRangeInclusive | frontend/src/store/useTaskStore.ts:264-269 | a task passes both date bounds iff it has no due date or the due date lies within them, bounds included |
| TaskStore.RemoveById | frontend/src/store/useTaskStore.ts:171 | a task survives iff it was present and has another id |
| TaskStore.RemoveByIdIsSubsequence | frontend/src/store/useTaskStore.ts:171 | the remaining tasks keep their order |
| TaskStore.FilterTasksAppend | frontend/src/store/useTaskStore.ts:136-137 | appending a task appends it to the filtered view iff it passes the filters |
| TaskStore.FilterTasksReplace | frontend/src/store/useTaskStore.ts:145-150 | replacing the task at one index changes the filtered view only at that task |
| TaskStore.FilterTasksRemove | frontend/src/store/useTaskStore.ts:171-172 | deleting by id and then filtering gives the previous view minus that id |
| TaskStore.ApplyUpdate | frontend/src/store/useTaskStore.ts:145-149 | the spread update sets `updatedAt` to now whatever the update says; a supplied title overwrites and an absent one is kept |
| TaskStore.EmptyUpdateOnlyBumps | frontend/src/store/useTaskStore.ts:145-149 | an update with no keys changes only `updatedAt` |
| TaskStore.AssigneeValue | frontend/src/store/useTaskStore.ts:161 | `null` and `undefined` both unassign; a string assigns exactly that string |
| TaskStore.FindIndex | frontend/src/store/useTaskStore.ts:143 | returns the first index holding the id, or nothing (-1) when no task has it |
| TaskStore.FetchIgnoresFilters | frontend/src/store/useTaskStore.ts:226-230 | with status `todo` set, filtering the mock list keeps one task, so showing all three is not the filtered view |
| TaskStore.Store.constructor | frontend/src/store/useTaskStore.ts:112-123 | the store starts empty with all six filters `null`, not loading and with no error; its view is consistent |
| TaskStore.Store.AddTask | frontend/src/store/useTaskStore.ts:125-139 | exactly one task is appended, with the given id and time and empty comments and attachments; earlier tasks and the filters are unchanged; the view is recomputed |
| TaskStore.Store.UpdateTask | frontend/src/store/useTaskStore.ts:141-153 | an unknown id changes nothing; a known id replaces only its first index with the merged task; the length is unchanged and the view stays consistent |
| TaskStore.Store.UpdateTaskAssignee | frontend/src/store/useTaskStore.ts:155-167 | like UpdateTask, with only the assignee id and `updatedAt` changed |
| TaskStore.Store.DeleteTask | frontend/src/store/useTaskStore.ts:169-174 | every task with the id is removed and the rest keep their order; the view loses exactly those tasks |
| TaskStore.Store.SetSearchQuery | frontend/src/store/useTaskStore.ts:175-180 | only the search filter changes, and `''` is stored as `null`; the view is recomputed |
| TaskStore.Store.SetStatusFilter | frontend/src/store/useTaskStore.ts:182-187 | only the status filter changes, and `''` is stored as `null` |
| TaskStore.Store.SetPriorityFilter | frontend/src/store/useTaskStore.ts:189-194 | only the priority filter changes, and `''` is stored as `null` |
| TaskStore.Store.SetAssigneeFilter | frontend/src/store/useTaskStore.ts:196-201 | only the assignee filter changes, and `''` is stored as `null` |
| TaskStore.Store.ResetFilters | frontend/src/store/useTaskStore.ts:203-215 | all filters become `null` and the view becomes a copy of the tasks, which is also the unfiltered result |
| TaskStore.Store.GetFilteredTasks | frontend/src/store/useTaskStore.ts:217-220 | returns the filtered tasks of the current state, a subsequence of the tasks, equal to the stored view when that is consistent |
| TaskStore.Store.FetchTasks | frontend/src/store/useTaskStore.ts:222-237 | as written: after the timer, tasks and view are both the mock list, whatever the filters; loading ends with no error |
| TaskStore.Store.FetchTasksFiltered | frontend/src/store/useTaskStore.ts:222-237 | corrected: the mock list is loaded and the view is consistent with the current filters |
| QueryFilter.FilteredTasks | frontend/src/hooks/useTasks.ts:45-105 | a task is in the view iff it is in the input and passes all four stages |
| QueryFilter.StatusStep | frontend/src/hooks/useTasks.ts:60-66 | an active status stage filters the previous result by status equality; an inactive one leaves it unchanged |
| QueryFilter.PriorityStep | frontend/src/hooks/useTasks.ts:69-75 | an active priority stage filters the previous result by priority equality; an inactive one leaves it unchanged |
| QueryFilter.AssigneeStep | frontend/src/hooks/useTasks.ts:78-88 | the assignee stage filters by falsy assignee for `'unassigned'`, by equality for an id, and leaves `'all_assignees'` and unset values unchanged |
| QueryFilter.SearchStep | frontend/src/hooks/useTasks.ts:91-102 | an active search stage filters by the trimmed, lower-cased query; an inactive one leaves the result unchanged |
| QueryFilter.AllStages | frontend/src/hooks/useTasks.ts:59-104 | the four stages applied in turn give the view |
| QueryFilter.StatusPass | frontend/src/hooks/useTasks.ts:59-66 | from the result so far, returns the result after the status stage and the number of tasks it removed |
| QueryFilter.PriorityPass | frontend/src/hooks/useTasks.ts:68-75 | the same for the priority stage |
| QueryFilter.AssigneePass | frontend/src/hooks/useTasks.ts:77-88 | the same for the assignee stage |
| QueryFilter.SearchPass | frontend/src/hooks/useTasks.ts:90-102 | the same for the search stage |
| QueryFilter.FilterPipeline | frontend/src/hooks/useTasks.ts:45-105 | the memo returns the view, empty for an empty input, and the four removal counters sum to the number of tasks removed |
| QueryFilter.FilteredIsSubsequence | frontend/src/hooks/useTasks.ts:51-104 | the view is a subsequence of the input, in order |
| QueryFilter.FilteredIdempotent | frontend/src/hooks/useTasks.ts:59-104 | running the pipeline on its own output with the same filter changes nothing |
| QueryFilter.UnconstrainedKeepsAll | frontend/src/hooks/useTasks.ts:45-105 | the empty filter and the context's default filter keep every task |
| QueryFilter.AllStatusIsNull | frontend/src/hooks/useTasks.ts:60 | status `'all'` filters exactly like `null` |
| QueryFilter.AllPriorityIsNull | frontend/src/hooks/useTasks.ts:69 | priority `'all'` filters exactly like `null` |
| QueryFilter.AllAssigneesIsNull | frontend/src/hooks/useTasks.ts:83 | assignee `'all_assignees'` filters exactly like `null` |
| QueryFilter.StatusKeepsExactly | frontend/src/hooks/useTasks.ts:60-63 | a status literal keeps exactly the tasks with that status |
| QueryFilter.ArrayStatusMatchesNothing | frontend/src/hooks/useTasks.ts:63 | an array-valued status is never `===` a task's status, so the view is empty |
| QueryFilter.AssigneeKeepsExactly | frontend/src/hooks/useTasks.ts:78-85 | `'unassigned'` keeps exactly the tasks with a falsy assignee id; another id keeps exactly the tasks with that id |
| QueryFilter.BlankSearchIsNull | frontend/src/hooks/useTasks.ts:91 | a whitespace-only search filters exactly like `null` |
| QueryFilter.SearchIsTrimmed | frontend/src/hooks/useTasks.ts:91-92 | trimming the search beforehand changes nothing |
| QueryFilter.TrimmedQuery | frontend/src/hooks/useTasks.ts:91-92 | trimming first changes neither whether the search is active nor the query it yields |
| QueryFilter.SearchKeepsExactly | frontend/src/hooks/useTasks.ts:91-99 | an active search keeps exactly the tasks whose lower-cased title, or non-empty lower-cased description, contains the trimmed lower-cased query |
| QueryFilter.EnginesAgree | frontend/src/hooks/useTasks.ts:59-99 | on single-valued, sentinel-free, pre-trimmed criteria without dates, the hook's view equals the store's `filterTasks` |
| QueryFilter.SearchAgrees | frontend/src/hooks/useTasks.ts:91-99 | on a pre-trimmed search the hook's search stage and the store's search test agree task by task |
| QueryFilter.ActiveFiltersCount | frontend/src/hooks/useTasks.ts:169-178 | the count never exceeds the number of keys and is 0 iff no key holds a value and the search is blank |
| QueryFilter.ActiveCountExamples | frontend/src/hooks/useTasks.ts:169-178 | the default filter and a whitespace-only search count 0, while `'all'` counts 1 |
| FilterState.FilterProvider.constructor | frontend/src/context/FilterContext.tsx:16-21 | the filter starts as `{status: null, priority: null, assigneeId: null, search: ''}` |
| FilterState.FilterProvider.SetFilter | frontend/src/context/FilterContext.tsx:34 | the new filter is exactly the argument, so absent keys are dropped rather than merged |
| FilterState.FilterProvider.ResetFilters | frontend/src/context/FilterContext.tsx:24-31 | the filter becomes exactly the initial filter |
| FilterState.ResetTwice | frontend/src/context/FilterContext.tsx:24-31 | a second reset leaves the filter the first one produced |
| FilterState.UseFilter | frontend/src/context/FilterContext.tsx:41-47 | outside a provider the hook fails with its message; inside one it returns the provided value |
| FilterControls.UiActiveCount | frontend/src/components/tasks/TaskFilters.tsx:52-56 | the panel's count never exceeds the number of keys and is 0 iff every value is `null`, absent or `''` |
| FilterControls.CountLabelForms | frontend/src/components/tasks/TaskFilters.tsx:71 | the chip text begins with the count; it reads `filtre actif` exactly for one, and `<n> filtres actifs` for every n above one |
| FilterControls.DefaultCountsNothing | frontend/src/components/tasks/TaskFilters.tsx:52-56 | the default filter counts 0, so no reset badge is shown |
| FilterControls.BlankSearchCountsHere | frontend/src/components/tasks/TaskFilters.tsx:54 | a whitespace-only search counts 1 on the panel but 0 in the hook |
| FilterControls.CountsAgreeOnPlainValues | frontend/src/components/tasks/TaskFilters.tsx:52-56 | without single `''` values and blank searches, the panel's count equals the hook's |
| FilterControls.Update | frontend/src/components/tasks/TaskFilters.tsx:87-144 | every change handler hands `setFilter` an object with exactly one key |
| FilterControls.UpdateMapsSentinelToNull | frontend/src/components/tasks/TaskFilters.tsx:214-262 | a select stores `null` for its clear value (`''` in Material, `all_status`/`all_priority`/`all_assignees` in ShadCN) and any other value unchanged, `'unassigned'` included |
| FilterControls.UpdateCountsAtMostOne | frontend/src/components/tasks/TaskFilters.tsx:52-56 | after any control change the count is at most one |
| FilterControls.ShowResetAfterUpdate | frontend/src/components/tasks/TaskFilters.tsx:69-77 | after a change the reset chip shows iff the chosen value is neither `''` nor the clear value |
| FilterControls.UnassignedChoiceKeepsUnassigned | frontend/src/components/tasks/TaskFilters.tsx:260-270 | choosing `'unassigned'` in either theme makes the hook keep exactly the unassigned tasks |
| TaskSchema.LengthIssues | frontend/src/lib/validation/task-schema.ts:8-16 | a string field has no issue iff it is present with a length within the bounds, untrimmed; each violated bound reports its own message |
| TaskSchema.StatusIssues | frontend/src/lib/validation/task-schema.ts:18-20 | the status has no issue iff it is present and one of the five literals |
| TaskSchema.PriorityIssues | frontend/src/lib/validation/task-schema.ts:22-24 | the priority has no issue iff it is present and one of the four literals |
| TaskSchema.SafeParse | frontend/src/lib/validation/task-schema.ts:7-31 | a failure carries every issue, and there is at least one |
| TaskSchema.AcceptedIff | frontend/src/lib/validation/task-schema.ts:7-31 | a form is accepted iff its title has 3-100 characters, its description 10-1000, and its status and priority are enumerated literals |
| TaskSchema.AcceptedKeepsValues | frontend/src/lib/validation/task-schema.ts:7-31 | an accepted form keeps its texts, its enumerated values, its due date and its assignee |
| TaskSchema.TitleRule | frontend/src/lib/validation/task-schema.ts:8-11 | the title has no issue iff it has 3-100 characters; too short and too long carry their own messages |
| TaskSchema.DescriptionRule | frontend/src/lib/validation/task-schema.ts:13-16 | the description has no issue iff it has 10-1000 characters; too short and too long carry their own messages |
| TaskSchema.EnumRule | frontend/src/lib/validation/task-schema.ts:18-24 | a missing status or priority gets its required message; a value outside the enumeration is rejected |
| TaskSchema.OptionalFieldsFree | frontend/src/lib/validation/task-schema.ts:26-28 | due date (absent, `null` or set) and assignee never change acceptance |
| TaskSchema.MissingTagsDefault | frontend/src/lib/validation/task-schema.ts:30 | missing tags parse to `[]` |
| TaskSchema.BlankTitlePasses | frontend/src/lib/validation/task-schema.ts:8-10 | a title of three spaces raises no title issue |
| TaskSchema.StatusOptionsEnumerate | frontend/src/lib/validation/task-schema.ts:41-47 | the status options list each status once, in enumeration order, under distinct labels |
| TaskSchema.PriorityOptionsEnumerate | frontend/src/lib/validation/task-schema.ts:52-57 | the priority options list each priority once, in enumeration order, under distinct labels |
| TaskSchema.MockUserIdsDistinct | frontend/src/lib/validation/task-schema.ts:62-67 | the mock users have distinct ids |
| JsonServer.Chain | backend/json-server.js:20-70 | given the body the validation finds, every error reply is 400, 401 or 500, and the router replies iff validation and authentication both call `next()` |
| JsonServer.Serve | backend/json-server.js:20-62 | as configured: no reply is ever 400, every `POST /tasks` gets the generic 500, and every other request is served as with the body parsed first |
| JsonServer.CreationAlwaysFails | backend/json-server.js:20-22 | as configured, a task creation gets the generic 500 whatever its body, credentials and router |
| JsonServer.ParsedBody | backend/json-server.js:60-62 | a parsed body is the one sent, or `{}` with both fields undefined when none was sent |
| JsonServer.ServeParsedFirst | backend/json-server.js:20-70 | with the body parsed first: every error reply is 400, 401 or 500, and the router replies iff the parsed body passes validation and authentication passes |
| JsonServer.BlankTitleRejected | backend/json-server.js:21-29 | with the body parsed first, a task creation with a missing or whitespace-only title gets 400 with the title message, whatever its credentials |
| JsonServer.BlankDescriptionRejected | backend/json-server.js:31-36 | with the body parsed first, once the title passes, a missing or whitespace-only description gets 400 with its own message |
| JsonServer.CreationAcceptedIff | backend/json-server.js:20-62 | with the body parsed first, an authorised creation reaches the router iff its title and description are both non-blank strings |
| JsonServer.AllSpaceTrim | backend/json-server.js:24 | `v.trim() === ''` holds iff the string is all whitespace |
| JsonServer.OnlyCreationValidated | backend/json-server.js:21 | only `POST` on exactly `/tasks` is validated, so updates never are, whatever body the validation finds |
| JsonServer.AuthRule | backend/json-server.js:47-58 | a validated request gets 401 iff it is not a `GET` and has no Bearer token; a `GET` never gets 401 |
| JsonServer.ValidationBeforeAuth | backend/json-server.js:20-58 | with the body parsed first, a creation without credentials that sends no body gets 400, not 401 |
| JsonServer.ErrorsBecomeServerError | backend/json-server.js:64-70 | any downstream error, and a non-string title, becomes 500 with the fixed message |
| JsonServer.AcceptedReachesRouter | backend/json-server.js:57-62 | an authorised, validated request gets the router's reply |
| ApiService.HandleApiError | frontend/src/services/api/apiService.ts:21-33 | an ok response is passed on unchanged; any other is rejected with `Erreur API: <status>` |
| ApiService.RejectionIgnoresBody | frontend/src/services/api/apiService.ts:24-30 | the rejection depends on the status only, never on the body |
| ApiService.RejectionNamesStatus | frontend/src/services/api/apiService.ts:29 | the text after `Erreur API: ` is the status's decimal spelling |
| ApiService.RejectionsDistinguishStatuses | frontend/src/services/api/apiService.ts:29 | different statuses give different rejections |
| ApiService.Call | frontend/src/services/api/apiService.ts:42-146 | network failures and error statuses are rethrown; resolution only follows a 2xx response; a deletion resolves with no value; any other ok call resolves with the decoded document, or rejects with the parser's error when the body does not parse |
| ApiService.HeadersCarryBearer | frontend/src/services/api/apiService.ts:13-16 | every request carries the JSON content type and an Authorization value starting `Bearer ` |
| ApiService.RoutingTable | frontend/src/services/api/apiService.ts:42-138 | the method and URL of each of the six operations; creation and update send their payload |
| ApiService.ClientPassesServerAuth | frontend/src/services/api/apiService.ts:13-16 | the server's authentication middleware lets every request of the client through |
| ApiService.OnlyCreateIsValidated | frontend/src/services/api/apiService.ts:97-103 | a creation is the client's only `POST /tasks`, and every other request passes the server's field validation whatever body it finds |
| TaskUseCases.Run | frontend/src/services/useCases/taskUseCases.ts:22-131 | success iff the API call resolved; a failure has no data and a non-empty error |
| TaskUseCases.AugmentKeepsForm | frontend/src/services/useCases/taskUseCases.ts:63-69 | a creation forwards the form values and adds empty comments and attachments |
| TaskUseCases.ResolvedGivesData | frontend/src/services/useCases/taskUseCases.ts:28-29 | a resolved call gives success with the API value; a deletion carries none |
| TaskUseCases.ErrorMessageReported | frontend/src/services/useCases/taskUseCases.ts:30-36 | an `Error` with a message gives failure with that message, and the notification contains it |
| TaskUseCases.FallbackMessages | frontend/src/services/useCases/taskUseCases.ts:31-35 | a non-`Error` gives the generic message; only an empty message uses the operation's fallback |
| TaskUseCases.NotificationRule | frontend/src/services/useCases/taskUseCases.ts:60-113 | a success notification is raised iff a creation, update or deletion resolved; each failure raises one error notification starting `Erreur: ` |
| TaskUseCases.FallbackNamesId | frontend/src/services/useCases/taskUseCases.ts:52 | the fallbacks of the one-task operations end with the task id |
| TaskUseCases.WireBody | frontend/src/services/useCases/taskUseCases.ts:63-69 | the server receives the form's title and description as strings |
| TaskUseCases.CreationEnvelopeAsConfigured | frontend/src/services/useCases/taskUseCases.ts:60-76 | with the server as configured, every creation fails with the envelope error `Erreur API: 500` |
| TaskUseCases.BlankTitleCreationEnvelope | frontend/src/services/useCases/taskUseCases.ts:60-76 | with the body parsed first, a form whose title is empty or whitespace only is refused with 400 and fails with `Erreur API: 400` |
| Users.FindIndex | frontend/src/hooks/useUsers.ts:30 | returns the first user whose id, as a string, equals the key, or nothing when none does |
| Users.FindUserById | frontend/src/hooks/useUsers.ts:28-31 | nothing for a falsy id or an empty list; otherwise a listed user with the same id string, or nothing when none matches |
| Users.FirstMatchWins | frontend/src/hooks/useUsers.ts:30 | with several matches the earliest is returned |
| Users.NumberAndStringAlike | frontend/src/hooks/useUsers.ts:30 | a number and the string spelling it find the same user |
| Users.OneAndStringOne | frontend/src/hooks/useUsers.ts:30 | `1` and `'1'` find the same user |
| TaskCard.PriorityMapsTotalAndDistinct | frontend/src/components/tasks/TaskCard.tsx:39-60 | every priority has a non-empty colour, class and label, distinct across priorities |
| TaskCard.StatusLabelsTotalAndDistinct | frontend/src/components/tasks/TaskCard.tsx:63-69 | every status has a non-empty label, distinct across statuses |
| TaskCard.LabelsMatchSelectOptions | frontend/src/components/tasks/TaskCard.tsx:55-69 | the card's labels are the form's option labels |
| TaskCard.AssigneeName | frontend/src/components/tasks/TaskCard.tsx:82-86 | a missing or empty assignee id shows `Non assigné` |
| TaskCard.AssigneeNameCases | frontend/src/components/tasks/TaskCard.tsx:84-85 | an id no user has shows `Inconnu`; one that users have shows the first such user's name |
| AssigneeSelector.Prefix | frontend/src/components/tasks/TaskAssigneeSelector.tsx:67 | `substring(0, n)` is the prefix of exactly min(n, length) characters |
| AssigneeSelector.NoAssigneeNoInitials | frontend/src/components/tasks/TaskAssigneeSelector.tsx:61 | no assignee gives empty initials |
| AssigneeSelector.InitialsOfTwoParts | frontend/src/components/tasks/TaskAssigneeSelector.tsx:63-66 | with two non-empty leading parts, the initials are their first characters, case unchanged |
| AssigneeSelector.InitialsOfOnePart | frontend/src/components/tasks/TaskAssigneeSelector.tsx:67 | a name without a space gives its first two characters upper-cased, at most two characters |
| AssigneeSelector.DoubleSpaceInitials | frontend/src/components/tasks/TaskAssigneeSelector.tsx:63-66 | as written, two words separated by a doubled space give the first letter followed by `undefined` |
| AssigneeSelector.Initials | frontend/src/components/tasks/TaskAssigneeSelector.tsx:60-68 | corrected initials, built from the non-empty words, never exceed two characters |
| AssigneeSelector.InitialsAgreeOnWellSpacedNames | frontend/src/components/tasks/TaskAssigneeSelector.tsx:60-68 | on names without empty parts, the corrected initials equal the code's |
| AssigneeSelector.AssignPayload | frontend/src/components/tasks/TaskAssigneeSelector.tsx:84-90 | the update carries the chosen user, with `null` sent as no assignee |
| AssigneeSelector.AssignPayloadForms | frontend/src/components/tasks/TaskAssigneeSelector.tsx:84-90 | a decimal task id is sent as that number, and unassigning sends no assignee |
| AssigneeSelector.FailedAssignmentReportedAsSuccess | frontend/src/components/tasks/TaskAssigneeSelector.tsx:87-97 | as written, a rejected update still settles and makes the selector announce a successful assignment |
| AssigneeSelector.AssignNotice | frontend/src/components/tasks/TaskAssigneeSelector.tsx:92-101 | corrected: a success is announced iff the update settled with a successful envelope |
| AssigneeSelector.AssignNoticeFollowsCall | frontend/src/components/tasks/TaskAssigneeSelector.tsx:87-101 | corrected, through the use case: success iff the update call resolved, and a failure names the call's error |
| Theme.ParseTheme | frontend/src/theme/ThemeContext.tsx:42-43 | a saved value is accepted iff it is `'material'` or `'shadcn'`, and then as the theme it spells |
| Theme.ParseThemeRoundTrip | frontend/src/theme/ThemeContext.tsx:42-50 | a persisted theme reads back as the same theme |
| Theme.ThemeNameInjective | frontend/src/theme/ThemeContext.tsx:5 | the two themes are stored under different names |
| Theme.Toggled | frontend/src/theme/ThemeContext.tsx:57 | toggling always gives the other theme |
| Theme.ToggleInvolution | frontend/src/theme/ThemeContext.tsx:56-58 | toggling twice gives the theme back |
| Theme.InitialTheme | frontend/src/theme/ThemeContext.tsx:35-38 | the initial theme is the given default, or `material` when none is given |
| Theme.Restored | frontend/src/theme/ThemeContext.tsx:41-46 | a valid saved theme is adopted; otherwise the theme is unchanged |
| Theme.RestoreAfterPersist | frontend/src/theme/ThemeContext.tsx:41-53 | restoring from what was persisted gives the persisted theme |
| Theme.ThemeProvider.Persist | frontend/src/theme/ThemeContext.tsx:49-53 | storage's `theme` entry and the `data-theme` attribute become the current theme, and nothing else is stored |
| Theme.ThemeProvider.constructor | frontend/src/theme/ThemeContext.tsx:33-53 | after mounting, the theme is the valid saved one, else the default; it is persisted |
| Theme.ThemeProvider.IsMaterial | frontend/src/theme/ThemeContext.tsx:68 | holds iff the current theme is `material` |
| Theme.ThemeProvider.ToggleTheme | frontend/src/theme/ThemeContext.tsx:56-58 | the theme flips and the new one is persisted |
| Theme.ThemeProvider.SetTheme | frontend/src/theme/ThemeContext.tsx:61-63 | the theme becomes exactly the argument and is persisted |
| Theme.ToggleTwice | frontend/src/theme/ThemeContext.tsx:56-58 | two toggles restore both the theme and the storage |
| Theme.ReloadKeepsTheme | frontend/src/theme/ThemeContext.tsx:41-53 | a reload after any change comes back with the same theme, whatever the default |

## Left out

- React Query is not modelled: the query cache, invalidation after mutations,
  de-duplication and the order of late responses (useTasks.ts:30-39 and
  107-164; useUsers.ts:15-26). These live in the library. The hooks' own
  mutation notifications (useTasks.ts:125-163) are left out with them.
- `fetch`, the network and React rendering are not modelled. A settled
  transport or API call is a parameter. Dialogs, forms, theme markup, `cn`
  and the ShadCN CSS string are rendering only.
- The json-server router is not modelled: persistence and its replies are
  left out, and the router is a parameter `Downstream` (a status, or a failure).
  The 300 ms delay and the request log only call `next()`, and `listen` is
  configuration.
- `fetchTasks` is modelled from the point where its timer fires. The
  intermediate `isLoading: true` state and the `catch` branch are left out:
  nothing inside its `try` can throw.
- `Math.random` ids and `new Date()` are parameters of the store methods.
  Dates are integer timestamps, and `LocalDate` orders the mock data's dates
  without modelling a calendar.
- Case mapping is ASCII only, and string lengths count characters rather
  than UTF-16 code units. Unicode case mapping and surrogate pairs are
  left out.
- `Number(s)` is computed for integers and NaN only. Other numeric
  literals are `Unevaluated`.
- Values of the wrong JSON type are left out, apart from one case. The schema's
  inputs are strings or absent. The server distinguishes only a truthy
  non-string title or description, which throws.
- TaskSchema.SafeParse: the issues zod raises for an enumeration mismatch or a
  missing string use the library's default wording. The model records them
  without a message.
- TaskStore.ApplyUpdate: the contract names `updatedAt` and `title` only. The
  other fields follow the same keep-or-overwrite rule in its definition, and
  `EmptyUpdateOnlyBumps` states the unchanged case for all of them.
- The user list reaches `TaskCard`, `TaskFilters`, `TaskAssigneeSelector` and
  `TaskFormContent` through a `useUsersList` member that `useUsers` does not
  return (useUsers.ts:33-36 returns only `getUsers` and `findUserById`). So
  `useUsersList` is `undefined`. Calling it throws a `TypeError` on the first
  render of each of these components (TaskCard.tsx:76-77, TaskFilters.tsx:45-46,
  TaskAssigneeSelector.tsx:52-53, TaskFormContent.tsx:70-71). As written, none
  of them ever renders. `TaskCard.AssigneeName`, the filter controls and the
  assignee selector therefore model what these components compute once they
  are given the user list, which is a parameter here.
- JSON encoding and decoding are not modelled. A creation's payload is an
  opaque string, and `TaskUseCases.WireBody` gives the body the server decodes
  from it. A malformed JSON body is left out.
- The theme context's value outside a provider is left out
  (ThemeContext.tsx:16-21). It is material with no-op actions, and no
  component renders outside the provider.
- Toasts are values returned by the model. Their display is not modelled.

## Findings

| source | as written | input that shows it | evidently intended | confidence | as-written member | corrected member |
|---|---|---|---|---|---|---|
| frontend/src/store/useTaskStore.ts:226-230 | `fetchTasks` sets `filteredTasks = mockTasks` without applying the current filters | set the status filter to `todo`, then fetch: the view shows all three mock tasks though one passes (`TaskStore.FetchIgnoresFilters`) | recompute `filteredTasks = filterTasks(tasks, filters)` like every other action | medium, not executed | TaskStore.Store.FetchTasks | TaskStore.Store.FetchTasksFiltered |
| frontend/src/components/tasks/TaskAssigneeSelector.tsx:63-66 | the initials take `nameParts[0][0]` and `nameParts[1][0]` of `split(' ')`, which may be empty parts | the name `John  Doe` (two spaces) gives `Jundefined` (`AssigneeSelector.DoubleSpaceInitials`) | at most two letters, taken from the non-empty words | high, not executed | AssigneeSelector.InitialsAsWritten | AssigneeSelector.Initials |
| backend/json-server.js:20-22 | the validation destructures `req.body` before any body parser runs; `jsonServer.defaults()` and the router are mounted only at json-server.js:60-62 | any `POST /tasks`, blank or valid, gets the generic 500 (`JsonServer.CreationAlwaysFails`); the client reports `Erreur API: 500` (`TaskUseCases.CreationEnvelopeAsConfigured`) | parse the body first, so blank fields get 400 and valid creations reach the router (`JsonServer.CreationAcceptedIff`) | high, not executed | JsonServer.Serve | JsonServer.ServeParsedFirst |
| frontend/src/components/tasks/TaskAssigneeSelector.tsx:87-97 | after `mutateAsync` settles, a success is announced without checking `result.success`; the use case never throws (taskUseCases.ts:87-93, useTasks.ts:136-139) | an update rejected with any error still shows `Tâche assignée à …` (`AssigneeSelector.FailedAssignmentReportedAsSuccess`) | announce success only when the envelope reports one, otherwise the envelope's error | high, not executed | AssigneeSelector.AssignNoticeAsWritten | AssigneeSelector.AssignNotice |
