# TaskTrove menubar — a verified model of the client core

TaskTrove menubar is a macOS menu-bar client for a TaskTrove server. It
fetches tasks, projects and labels over HTTP. It keeps them in a view-model
cache that the views filter, sort and paginate. Edits are written back as
JSON diff patches, either in a debounced batch or immediately. The
repository also holds an older client, "Tasker", with a simpler view-model.
This project models both clients' core in Dafny:

- the task, subtask, project and label records, and the sort and filter
  enums with their raw values (`tasks.dfy`, `legacy_tasks.dfy`);
- keyed-sequence operations: first match, replace first, coalesce by id,
  and the "dirty wins" merge of a refresh (`keyed.dfy`);
- the derived task list: category filter, project and label filters,
  sorting by due date or priority with absent keys last, and pagination
  (`task_view.dfy`, `sorting.dfy`, `seqs.dfy`);
- the diff patch of `createDiff` and what it sends (`task_diff.dfy`);
- the debounced write-back and its discrepancy (`write_back.dfy`);
- the menubar view-model as a class whose methods update its fields
  (`task_store.dfy`), and the older Tasker view-model (`legacy_store.dfy`);
- the settings store and its UUID-string selections (`settings.dfy`,
  `uuid.dfy`, `hex.dfy`), and the configuration service
  (`configuration.dfy`);
- the network layer's pure parts: response classification, the
  authenticated request, UUID sanitising of PATCH bodies, and the lenient
  project and label decoders (`http.dfy`, `payload.dfy`, `decoding.dfy`);
- the views' logic: the row's overdue, subtask and priority badges, inline
  title editing, the `Color(hex:)` parser, the multi-select picker, and the
  filter buttons, toggles and refresh controls of the content views
  (`task_row.dfy`, `legacy_task_row.dfy`, `hex_color.dfy`,
  `multi_select.dfy`, `content_view.dfy`, `legacy_content_view.dfy`).

Dates are day numbers and "today" is a parameter. JSON values are a small
datatype (`Payload.Json`), and a UUID is 32 hexadecimal nibbles.

## Model

| member | source | states |
|---|---|---|
| Tasks.ParseSortOption | tasktrove-menubar/ViewModel/TaskListViewModel.swift:4-10 | a parsed sort option's raw value is the parsed string |
| Tasks.ParseFilterCategory | tasktrove-menubar/ViewModel/TaskListViewModel.swift:12-20 | a parsed filter category's raw value is the parsed string |
| Tasks.RawValuesRoundTrip | tasktrove-menubar/ViewModel/TaskListViewModel.swift:4-20 | every sort option and filter category parses back from its raw value |
| Hex.DigitChar | tasktrove-menubar/Service/SettingsService.swift:48-59 | the digit character of a nibble parses back to that nibble, in upper and lower case |
| Hex.LowerString | tasktrove-menubar/Service/NetworkService.swift:497-512 | lower-casing keeps the length and lowers each character |
| Hex.DigitString | tasktrove-menubar/Service/SettingsService.swift:48-59 | one digit character per nibble, in order |
| Hex.ParseDigits | tasktrove-menubar/Service/SettingsService.swift:48-59 | parsing succeeds exactly when every character is a hex digit, and yields each digit's value |
| Hex.ParseDigitString | tasktrove-menubar/Service/SettingsService.swift:48-59 | digit strings, upper or lower case, parse back to their nibbles |
| Hex.Pow16 | tasktrove-menubar/View/TaskRowView.swift:226-227 | powers of 16 are at least 1 |
| Hex.Value | tasktrove-menubar/View/TaskRowView.swift:226-227 | the value of n nibbles is below 16 to the n |
| Uuids.UuidString | tasktrove-menubar/Service/SettingsService.swift:48-59 | a UUID string has 36 characters |
| Uuids.ParseUuidString | tasktrove-menubar/Service/SettingsService.swift:48-59 | a UUID string, upper or lower case, parses back to the UUID |
| Uuids.UuidStringInjective | tasktrove-menubar/Service/SettingsService.swift:48-59 | distinct UUIDs have distinct strings |
| Seqs.IsSubseqTransitive | tasktrove-menubar/ViewModel/TaskListViewModel.swift:79-133 | filter stages compose: a subsequence of a subsequence is a subsequence |
| Seqs.IsSubseqReflexive | tasktrove-menubar/ViewModel/TaskListViewModel.swift:79-133 | a list is a subsequence of itself |
| Seqs.Filter | tasktrove-menubar/ViewModel/TaskListViewModel.swift:380-398 | the kept items satisfy the predicate, keep their multiplicity, keep their order, and none are invented |
| Keyed.UniqueKeysCount | tasktrove-menubar/ViewModel/TaskListViewModel.swift:340-349 | a list with distinct ids has as many ids as items |
| Keyed.FirstIndex | tasktrove-menubar/ViewModel/TaskListViewModel.swift:218-224 | the result is the first position holding the id, or none when no item has it |
| Keyed.FindFirst | tasktrove-menubar/ViewModel/TaskListViewModel.swift:226-230 | the result is the first item with the id, or none when absent |
| Keyed.ReplaceFirst | tasktrove-menubar/ViewModel/TaskListViewModel.swift:218-224 | replacing keeps the length and the ids |
| Keyed.ReplaceFirstSpec | tasktrove-menubar/ViewModel/TaskListViewModel.swift:218-224 | only the first item with the id is replaced, other items are unchanged, and an absent id changes nothing |
| Keyed.LastWithKeyPresent | tasktrove-menubar/ViewModel/TaskListViewModel.swift:340-349 | every id of a buffer has a last occurrence, which carries that id |
| Keyed.Coalesce | tasktrove-menubar/ViewModel/TaskListViewModel.swift:340-349 | de-duplicating by id yields distinct ids, the same id set, and each id's last value |
| Keyed.ApplyEditsLookup | tasktrove-menubar/ViewModel/TaskListViewModel.swift:218-224 | after a series of edits, a cached id's first task is its last edit, or the original when not edited |
| Keyed.FirstIndexAt | tasktrove-menubar/ViewModel/TaskListViewModel.swift:218-224 | replacing at the first index keeps that index first for the id |
| Keyed.FirstIndexUnaffected | tasktrove-menubar/ViewModel/TaskListViewModel.swift:218-224 | replacing one id leaves other ids' first index unchanged |
| Keyed.Merge | tasktrove-menubar/ViewModel/TaskListViewModel.swift:188-216 | the merged list has the server's length, and the server's id at every position |
| Keyed.DirtyWins | tasktrove-menubar/ViewModel/TaskListViewModel.swift:188-216 | a server task with a dirty cached id becomes the cached copy, and every other server task is kept as fetched |
| Sorting.ComparisonIsStrictWeakOrder | tasktrove-menubar/ViewModel/TaskListViewModel.swift:66-77 | the present-before-absent comparison is irreflexive and asymmetric, and its incomparability is transitive |
| Sorting.SortedCons | tasktrove-menubar/ViewModel/TaskListViewModel.swift:117-130 | a list with a new head is sorted exactly when the tail is sorted and no tail item precedes the head |
| Sorting.Insert | tasktrove-menubar/ViewModel/TaskListViewModel.swift:117-130 | insertion into a sorted list keeps it sorted and adds exactly the item |
| Sorting.SortBy | tasktrove-menubar/ViewModel/TaskListViewModel.swift:117-130 | the sorted list is ordered by the comparison and is a permutation of the input |
| Sorting.PresentKeysFirst | tasktrove-menubar/ViewModel/TaskListViewModel.swift:66-77 | in a sorted list no task without a key precedes one with a key |
| TaskView.CategoriesRelate | tasktrove-menubar/ViewModel/TaskListViewModel.swift:83-106 | All holds exactly the tasks Completed does not; Inbox tasks are in All; an open task with a due date is in exactly one of Today and Upcoming, and only such tasks are |
| TaskView.ProjectStepSpec | tasktrove-menubar/ViewModel/TaskListViewModel.swift:380-388 | the project filter keeps exactly the tasks whose project is selected, all of them when nothing is selected, in order |
| TaskView.LabelStepSpec | tasktrove-menubar/ViewModel/TaskListViewModel.swift:390-398 | the label filter keeps exactly the tasks sharing a selected label, all of them when nothing is selected, in order |
| TaskView.UnsortedSpec | tasktrove-menubar/ViewModel/TaskListViewModel.swift:79-114 | before sorting, the list holds each task that passes the category and the secondary filters, with its multiplicity, in cache order |
| TaskView.SortTasksSpec | tasktrove-menubar/ViewModel/TaskListViewModel.swift:117-130 | sorting is a permutation, the default option keeps the order, and the others are ordered |
| TaskView.FilteredTasksSpec | tasktrove-menubar/ViewModel/TaskListViewModel.swift:79-133 | the visible list holds exactly the selected tasks and is ordered by the sort option |
| TaskView.TotalPages | tasktrove-menubar/ViewModel/TaskListViewModel.swift:50-54 | at least one page, exactly one for no items; the pages hold all the items, and the last page is non-empty when there are items |
| TaskView.PaginatedTasks | tasktrove-menubar/ViewModel/TaskListViewModel.swift:56-64 | a page holds at most five tasks, is empty exactly when it starts past the end, and its j-th task is the visible list's item at page*5+j |
| TaskView.PagesBeforeIsPrefix | tasktrove-menubar/ViewModel/TaskListViewModel.swift:56-64 | the pages before page n concatenate to the visible list's prefix |
| TaskView.PagesCoverFiltered | tasktrove-menubar/ViewModel/TaskListViewModel.swift:50-64 | the pages from 0 to totalPages-1 concatenate to the whole visible list |
| TaskView.LabelsFor | tasktrove-menubar/ViewModel/TaskListViewModel.swift:426-429 | a label is shown for a task exactly when it is one of the task's labels, as often as it occurs in all labels and in their order |
| TaskDiff.CreateDiff | tasktrove-menubar/ViewModel/TaskListViewModel.swift:291-331 | the patch carries the id and only the fields the diff knows; a cleared `completed` writes no entry |
| TaskDiff.NoChangeDetected | tasktrove-menubar/ViewModel/TaskListViewModel.swift:291-331 | the patch holds only the id exactly when no compared field changed, `completed` counting only when the new task has a value |
| TaskDiff.DiffRoundTrip | tasktrove-menubar/ViewModel/TaskListViewModel.swift:291-331 | applying the patch to the original yields the modified task on the compared fields, and keeps the original's id, section, and `completed` when the new value is absent |
| TaskDiff.DiffOnlyChanged | tasktrove-menubar/ViewModel/TaskListViewModel.swift:291-331 | each field is in the patch exactly when it changed (for `completed`, when it changed to a value) |
| WriteBack.Patches | tasktrove-menubar/ViewModel/TaskListViewModel.swift:351-378 | never more patches than tasks |
| WriteBack.Ids | tasktrove-menubar/ViewModel/TaskListViewModel.swift:351-378 | the ids of a batch, one per task |
| WriteBack.SendUpdate | tasktrove-menubar/ViewModel/TaskListViewModel.swift:351-378 | a request exactly when some task yields a patch, carrying those patches and the batch's ids |
| WriteBack.PatchesForAppend | tasktrove-menubar/ViewModel/TaskListViewModel.swift:351-378 | the patches of a concatenation are the concatenation of the patches |
| WriteBack.PatchesPerId | tasktrove-menubar/ViewModel/TaskListViewModel.swift:351-378 | a task contributes a patch exactly when it is cached and differs from its cached copy in a field the diff writes |
| WriteBack.NothingToSend | tasktrove-menubar/ViewModel/TaskListViewModel.swift:351-378 | a batch equal to the cached copies produces no request |
| WriteBack.DebouncedEditsNeverSent | tasktrove-menubar/ViewModel/TaskListViewModel.swift:218-224 | as written, edits stored by updateTask and then flushed produce no request |
| WriteBack.TitleEditNotSent | tasktrove-menubar/ViewModel/TaskListViewModel.swift:218-224 | a concrete title edit of a cached task is never sent |
| WriteBack.KeysOfSnoc | tasktrove-menubar/ViewModel/TaskListViewModel.swift:340-349 | the ids of a buffer with one more edit gain that edit's id |
| WriteBack.FindFirstSnoc | tasktrove-menubar/ViewModel/TaskListViewModel.swift:340-349 | the first match in a buffer is unaffected by appending |
| WriteBack.WindowOriginalsLookup | tasktrove-menubar/ViewModel/TaskListViewModel.swift:218-224 | the cache at the start of the debounce window holds each edited task's pre-edit copy |
| WriteBack.FlushIntendedSendsLastEdit | tasktrove-menubar/ViewModel/TaskListViewModel.swift:340-378 | diffed against the window-start cache, each edited cached task that changed is sent as the diff to its last edit |
| WriteBack.DebounceCoalescing | tasktrove-menubar/ViewModel/TaskListViewModel.swift:340-349 | several edits of one task in a window send one patch, to the last edit |
| TaskStore.ToggledTask | tasktrove-menubar/ViewModel/TaskListViewModel.swift:273-277 | toggling flips completion, treating absent as false, and changes nothing else |
| TaskStore.ToggledSubtask | tasktrove-menubar/ViewModel/TaskListViewModel.swift:279-287 | toggling subtask j flips its completion only |
| TaskStore.SubtaskToggleSpec | tasktrove-menubar/ViewModel/TaskListViewModel.swift:279-287 | the toggle fails exactly when the parent or the subtask is not cached; otherwise only the first matching subtask of the cached parent flips |
| TaskStore.TaskListViewModel.constructor | tasktrove-menubar/ViewModel/TaskListViewModel.swift:144-152 | starts empty, not loading, on page 0, with the settings' sort option and category and the given selections |
| TaskStore.TaskListViewModel.BeginFetch | tasktrove-menubar/ViewModel/TaskListViewModel.swift:188-192 | a fetch starts exactly when none is in progress, clearing the error |
| TaskStore.TaskListViewModel.CompleteFetch | tasktrove-menubar/ViewModel/TaskListViewModel.swift:192-216 | success installs the dirty-wins merge and the fetched projects and labels; failure sets the error only; loading ends |
| TaskStore.TaskListViewModel.UpdateTask | tasktrove-menubar/ViewModel/TaskListViewModel.swift:218-224 | replaces the first cached task with the id and marks it dirty, and always buffers the edit |
| TaskStore.TaskListViewModel.UpdateTaskImmediately | tasktrove-menubar/ViewModel/TaskListViewModel.swift:226-255 | an unknown id changes nothing; otherwise the cache takes the edit and the diff is sent unless it holds only the id |
| TaskStore.TaskListViewModel.CompleteUpdate | tasktrove-menubar/ViewModel/TaskListViewModel.swift:368-377 | on success the batch's ids are no longer dirty; on failure the error is set and dirty ids stay |
| TaskStore.TaskListViewModel.NextPage | tasktrove-menubar/ViewModel/TaskListViewModel.swift:257-261 | advances one page only when not on the last page |
| TaskStore.TaskListViewModel.PreviousPage | tasktrove-menubar/ViewModel/TaskListViewModel.swift:263-267 | goes back one page only when not on the first |
| TaskStore.TaskListViewModel.ResetPagination | tasktrove-menubar/ViewModel/TaskListViewModel.swift:269-271 | returns to page 0 |
| TaskStore.TaskListViewModel.ToggleTaskCompletion | tasktrove-menubar/ViewModel/TaskListViewModel.swift:273-277 | an update with the task's completion flipped |
| TaskStore.TaskListViewModel.ToggleSubtaskCompletion | tasktrove-menubar/ViewModel/TaskListViewModel.swift:279-287 | nothing happens when the parent or subtask is not cached; otherwise the cached parent with that subtask flipped is updated |
| TaskStore.TaskListViewModel.Flush | tasktrove-menubar/ViewModel/TaskListViewModel.swift:340-378 | the buffer is emptied and the as-written batch request against the current cache is produced |
| TaskStore.TaskListViewModel.SetSelectedProjectIDs | tasktrove-menubar/ViewModel/TaskListViewModel.swift:153-183 | the selection changes, the page resets to 0 |
| TaskStore.TaskListViewModel.SetSelectedLabelIDs | tasktrove-menubar/ViewModel/TaskListViewModel.swift:153-183 | the selection changes, the page resets to 0 |
| TaskStore.TaskListViewModel.SetSortOption | tasktrove-menubar/ViewModel/TaskListViewModel.swift:153-183 | the option changes, is persisted in the settings, and the page resets to 0 |
| TaskStore.TaskListViewModel.SetFilterCategory | tasktrove-menubar/ViewModel/TaskListViewModel.swift:153-183 | the category changes, is persisted in the settings, and the page resets to 0 |
| TaskStore.TaskListViewModel.DismissError | tasktrove-menubar/View/ContentView.swift:137-140 | the error is cleared |
| TaskStore.EditThenFlush | tasktrove-menubar/ViewModel/TaskListViewModel.swift:218-224 | on the class, an edit followed by the debounced flush sends nothing |
| Settings.UuidsOf | tasktrove-menubar/Service/SettingsService.swift:48-59 | the stored strings that parse as UUIDs give the selection, and nothing else does |
| Settings.SettingsService.constructor | tasktrove-menubar/Service/SettingsService.swift:8-14 | wraps the given store |
| Settings.SettingsService.SortOption | tasktrove-menubar/Service/SettingsService.swift:20-30 | the stored option when its raw value parses, Due Date otherwise |
| Settings.SettingsService.FilterCategory | tasktrove-menubar/Service/SettingsService.swift:34-44 | the stored category when its raw value parses, All otherwise |
| Settings.SettingsService.IdsUnder | tasktrove-menubar/Service/SettingsService.swift:48-74 | no stored array gives an empty selection |
| Settings.SettingsService.SetSortOption | tasktrove-menubar/Service/SettingsService.swift:26-29 | stores the raw value, and reading back gives the option |
| Settings.SettingsService.SetFilterCategory | tasktrove-menubar/Service/SettingsService.swift:40-43 | stores the raw value, and reading back gives the category |
| Settings.SettingsService.SetIds | tasktrove-menubar/Service/SettingsService.swift:48-74 | stores a string array under the key, leaves other keys, and reading back gives the ids |
| Settings.SettingsService.SetSelectedProjectIDs | tasktrove-menubar/Service/SettingsService.swift:55-58 | reading back gives the ids; other keys are kept |
| Settings.SettingsService.SetSelectedLabelIDs | tasktrove-menubar/Service/SettingsService.swift:70-73 | reading back gives the ids; other keys are kept |
| Settings.UuidsOfSnoc | tasktrove-menubar/Service/SettingsService.swift:48-59 | appending a UUID string adds exactly that UUID |
| Settings.UuidStrings | tasktrove-menubar/Service/SettingsService.swift:55-58 | the stored strings of a selection parse back to it, one string per id |
| Settings.KeysDistinct | tasktrove-menubar/Service/SettingsService.swift:8-14 | the four settings keys are distinct |
| Settings.EmptyStoreDefaults | tasktrove-menubar/Service/SettingsService.swift:20-74 | an empty store reads as Due Date, All and empty selections |
| Settings.UnparseableDropped | tasktrove-menubar/Service/SettingsService.swift:48-59 | a stored string that is not a UUID adds nothing |
| Configuration.Loaded | tasktrove-menubar/Service/ConfigurationService.swift:38-48 | a configuration is loaded exactly when endpoint and key are both stored and non-empty |
| Configuration.ConfigurationService.constructor | tasktrove-menubar/Service/ConfigurationService.swift:28-34 | loads from the store; isConfigured agrees with the configuration |
| Configuration.ConfigurationService.Load | tasktrove-menubar/Service/ConfigurationService.swift:38-48 | the configuration read from the store; isConfigured kept in step |
| Configuration.ConfigurationService.Save | tasktrove-menubar/Service/ConfigurationService.swift:54-58 | stores both values and sets the configuration |
| Configuration.ConfigurationService.ClearConfiguration | tasktrove-menubar/Service/ConfigurationService.swift:63-67 | removes both values, clears the configuration and isConfigured |
| Configuration.SaveThenLoad | tasktrove-menubar/Service/ConfigurationService.swift:38-58 | a non-empty saved configuration loads back unchanged |
| Configuration.ClearThenLoad | tasktrove-menubar/Service/ConfigurationService.swift:38-67 | after clearing, loading finds nothing |
| Http.ClassifyTaskResponse | tasktrove-menubar/Service/NetworkService.swift:343-355 | success exactly for 2xx, forbidden exactly for 403, any other or missing status a bad response |
| Http.ClassifyPlainResponse | tasktrove-menubar/Service/NetworkService.swift:32 | never forbidden; success exactly for 2xx |
| Http.ClassificationsAgree | tasktrove-menubar/Service/NetworkService.swift:32-355 | the two classifications agree except on 403 |
| Http.CreateAuthenticatedRequest | tasktrove-menubar/Service/NetworkService.swift:436-442 | exactly the bearer and JSON content-type headers, and the bearer token reads back |
| Http.BearerToken | tasktrove-menubar/Service/NetworkService.swift:436-442 | the token is read from an Authorization header with the Bearer prefix |
| Http.TokenDetermined | tasktrove-menubar/Service/NetworkService.swift:436-442 | requests with different tokens carry different headers |
| Http.UpdateTasks | tasktrove-menubar/Service/NetworkService.swift:514-538 | a PATCH of tasks whose body is the sanitized objects with the same keys and no UUID left, and the outcome classifies the status |
| Payload.LowerUuidString | tasktrove-menubar/Service/NetworkService.swift:497-512 | a lower-cased UUID string parses back to the UUID |
| Payload.SanitizedSpec | tasktrove-menubar/Service/NetworkService.swift:497-512 | sanitizing leaves no UUID, keeps the shape, turns each UUID into its lower-case string, and is idempotent |
| Payload.SanitizeNoUuid | tasktrove-menubar/Service/NetworkService.swift:497-512 | a value without UUIDs is unchanged |
| Payload.RecursivelySanitize | tasktrove-menubar/Service/NetworkService.swift:497-512 | the iterative sanitizer computes the sanitized value |
| Payload.SanitizedBodies | tasktrove-menubar/Service/NetworkService.swift:519-523 | each sanitized body keeps its keys and holds no UUID |
| Decoding.StringArray | tasktrove-menubar/Service/NetworkService.swift:214 | the strings of an array, in order |
| Decoding.ObjectArray | tasktrove-menubar/Service/NetworkService.swift:203-212 | the objects of an array, in order |
| Decoding.ProjectsOf | tasktrove-menubar/Service/NetworkService.swift:193-220 | never more projects than entries |
| Decoding.ProjectsOfAllIds | tasktrove-menubar/Service/NetworkService.swift:193-220 | when every entry has an id, each entry gives the project at its own position |
| Decoding.LabelsOf | tasktrove-menubar/Service/NetworkService.swift:287-297 | never more labels than entries |
| Decoding.LabelsOfAllIds | tasktrove-menubar/Service/NetworkService.swift:287-297 | when every entry has an id, each entry gives the label at its own position |
| Decoding.ProjectsOfSkipsIdless | tasktrove-menubar/Service/NetworkService.swift:196-197 | entries without an id are skipped |
| Decoding.ProjectsFromArray | tasktrove-menubar/Service/NetworkService.swift:193-220 | the loop yields the decoded projects |
| Decoding.LabelsFromArray | tasktrove-menubar/Service/NetworkService.swift:287-297 | the loop yields the decoded labels |
| Decoding.ProjectDefaults | tasktrove-menubar/Service/NetworkService.swift:197-214 | a bare id gives "Unnamed Project", empty slug, black color, not shared, no sections and no task order |
| Decoding.PreferredKeys | tasktrove-menubar/Service/NetworkService.swift:197-214 | id wins over _id, name over title, taskOrder over task_order |
| Decoding.StringsRoundTrip | tasktrove-menubar/Service/NetworkService.swift:214 | a string array decodes back to its strings |
| Decoding.SectionRoundTrip | tasktrove-menubar/Service/NetworkService.swift:203-212 | a section's JSON decodes back to it |
| Decoding.SectionDicts | tasktrove-menubar/Service/NetworkService.swift:203-212 | the sections' JSON is an array of their objects |
| Decoding.SectionDictsRoundTrip | tasktrove-menubar/Service/NetworkService.swift:203-212 | the sections' objects decode back to the sections |
| Decoding.SectionsRoundTrip | tasktrove-menubar/Service/NetworkService.swift:203-212 | the sections' JSON decodes back to the sections |
| Decoding.ProjectRoundTrip | tasktrove-menubar/Service/NetworkService.swift:193-220 | a project's JSON decodes back to the project |
| Decoding.FirstCandidate | tasktrove-menubar/Service/NetworkService.swift:231-239 | an array found under a candidate key, and none exactly when no candidate key holds an array of objects |
| Decoding.FindArray | tasktrove-menubar/Service/NetworkService.swift:222-253 | a top-level array first, then the first candidate key with an array, then any array field, else nothing |
| Decoding.DecodeProjects | tasktrove-menubar/Service/NetworkService.swift:222-253 | the projects of the top-level array, else of the first candidate key's array, else of some other key's array, else none |
| Decoding.DecodeLabels | tasktrove-menubar/Service/NetworkService.swift:299-328 | the labels of the top-level array, else of the first candidate key's array, else of some other key's array, else none |
| HexColor.TrimStart | tasktrove-menubar/View/TaskRowView.swift:225 | the trimmed text starts at the first alphanumeric character, everything before it being non-alphanumeric |
| HexColor.TrimEnd | tasktrove-menubar/View/TaskRowView.swift:225 | the trimmed text ends after the last alphanumeric character, everything after it being non-alphanumeric |
| HexColor.Trimmed | tasktrove-menubar/View/TaskRowView.swift:225 | no longer than the input, and empty or alphanumeric at both ends |
| HexColor.TrimmedSpec | tasktrove-menubar/View/TaskRowView.swift:225 | the trimmed string is a slice of the input with only non-alphanumerics cut away |
| HexColor.TrimmedKeeps | tasktrove-menubar/View/TaskRowView.swift:225 | a string already alphanumeric at both ends is unchanged |
| HexColor.TrimmedIdempotent | tasktrove-menubar/View/TaskRowView.swift:225 | trimming twice equals trimming once |
| HexColor.DigitRun | tasktrove-menubar/View/TaskRowView.swift:226-227 | the longest leading run of hex digits |
| HexColor.ScanStart | tasktrove-menubar/View/TaskRowView.swift:226-227 | the scan starts at the beginning or after a two-character prefix |
| HexColor.Scanned | tasktrove-menubar/View/TaskRowView.swift:226-227 | the scanned value fits in the string's digits |
| HexColor.Pow16Monotonic | tasktrove-menubar/View/TaskRowView.swift:226-227 | powers of 16 grow with the exponent |
| HexColor.Decode | tasktrove-menubar/View/TaskRowView.swift:223-241 | a color exactly when the trimmed string has 3, 6 or 8 characters |
| HexColor.ShortChannels | tasktrove-menubar/View/TaskRowView.swift:230-231 | 12-bit values give opaque channels |
| HexColor.RgbChannels | tasktrove-menubar/View/TaskRowView.swift:232-233 | 24-bit values give opaque channels |
| HexColor.ArgbChannels | tasktrove-menubar/View/TaskRowView.swift:234-235 | 32-bit values give four channels |
| HexColor.DecodeChannelsInRange | tasktrove-menubar/View/TaskRowView.swift:229-237 | channels are bytes, alpha is 255 unless eight digits, short forms are multiples of 17 |
| HexColor.DecodeTrimmed | tasktrove-menubar/View/TaskRowView.swift:225-229 | decoding depends only on the trimmed string |
| HexColor.ValueAppend | tasktrove-menubar/View/TaskRowView.swift:226-227 | appending a digit multiplies the value by 16 and adds the digit |
| HexColor.ByteDigits | tasktrove-menubar/View/TaskRowView.swift:226-227 | a byte's two digits give its value back |
| HexColor.ScannedDigitString | tasktrove-menubar/View/TaskRowView.swift:226-227 | scanning a digit string yields its value |
| HexColor.TrimmedHashDigits | tasktrove-menubar/View/TaskRowView.swift:225 | trimming "#" plus digits leaves the digits |
| HexColor.DecodeHashDigits | tasktrove-menubar/View/TaskRowView.swift:223-237 | "#" plus digits decodes to the channels of their value |
| HexColor.RgbValue | tasktrove-menubar/View/TaskRowView.swift:232-233 | the six digits of r, g, b have value r*65536+g*256+b |
| HexColor.RgbChannelsOf | tasktrove-menubar/View/TaskRowView.swift:232-233 | the value r*65536+g*256+b gives back r, g and b |
| HexColor.RgbRoundTrip | tasktrove-menubar/View/TaskRowView.swift:223-237 | "#rrggbb" decodes to opaque r, g, b |
| HexColor.ArgbValue | tasktrove-menubar/View/TaskRowView.swift:234-235 | the eight digits of a, r, g, b have their packed value |
| HexColor.ArgbChannelsOf | tasktrove-menubar/View/TaskRowView.swift:234-235 | the packed value gives back a, r, g and b |
| HexColor.ArgbRoundTrip | tasktrove-menubar/View/TaskRowView.swift:223-237 | "#aarrggbb" decodes to a, r, g, b |
| HexColor.ShortValue | tasktrove-menubar/View/TaskRowView.swift:230-231 | the three digits of r, g, b have value r*256+g*16+b |
| HexColor.ShortChannelsOf | tasktrove-menubar/View/TaskRowView.swift:230-231 | the short value gives back each digit times 17 |
| HexColor.ShortRoundTrip | tasktrove-menubar/View/TaskRowView.swift:223-237 | "#rgb" decodes to opaque r*17, g*17, b*17 |
| HexColor.OtherLengthsRejected | tasktrove-menubar/View/TaskRowView.swift:236 | "#" followed by any digit count other than 3, 6 or 8 gives no color, and so does the empty string |
| TaskRow.OverdueIsToday | tasktrove-menubar/View/TaskRowView.swift:132-134 | an open overdue task is shown under Today and not under Upcoming |
| TaskRow.DoneCount | tasktrove-menubar/View/TaskRowView.swift:68-72 | the count of done subtasks is between 0 and the total |
| TaskRow.SubtaskBadge | tasktrove-menubar/View/TaskRowView.swift:68-72 | a badge exactly when there are subtasks, with the total and the done count |
| TaskRow.AllDone | tasktrove-menubar/View/TaskRowView.swift:68-72 | the done count equals the total exactly when every subtask is done |
| TaskRow.DoneCountUpdate | tasktrove-menubar/View/TaskRowView.swift:68-72 | changing one subtask moves the count by its completion change |
| TaskRow.ToggleMovesBadge | tasktrove-menubar/View/TaskRowView.swift:68-72 | toggling a subtask moves the done count by one in the toggled direction |
| TaskRow.PriorityBadge | tasktrove-menubar/View/TaskRowView.swift:137-156 | a badge exactly for priorities 1 to 3, reading "P" and the digit |
| TaskRow.TaskRowEditor.constructor | tasktrove-menubar/View/TaskRowView.swift:189-196 | a row starts not editing |
| TaskRow.TaskRowEditor.StartEditing | tasktrove-menubar/View/TaskRowView.swift:189-196 | editing starts with the task's title |
| TaskRow.TaskRowEditor.CommitEdit | tasktrove-menubar/View/TaskRowView.swift:198-205 | editing ends; a non-empty changed title is sent through updateTask, anything else changes nothing |
| TaskRow.EditUnchanged | tasktrove-menubar/View/TaskRowView.swift:198-205 | committing the unchanged title leaves the view-model untouched |
| LegacyTasks.UnsortedSpec | Tasker/ViewModel/TaskListViewModel.swift:34-39 | before sorting, the due-date, project and label filters keep exactly the selected tasks, in cache order |
| LegacyTasks.SortTasksSpec | Tasker/ViewModel/TaskListViewModel.swift:40-51 | sorting is a permutation; the default keeps the order, due date is ascending and priority descending |
| LegacyTasks.FilteredTasksSpec | Tasker/ViewModel/TaskListViewModel.swift:34-54 | the visible list holds exactly the selected tasks, ordered by due date or priority |
| LegacyTasks.UnknownProjectEmpties | Tasker/ViewModel/TaskListViewModel.swift:193-198 | a project no task has empties the list |
| LegacyTasks.LabelsFor | Tasker/ViewModel/TaskListViewModel.swift:224-227 | a label is shown exactly when it is one of the task's labels, as often as it occurs in all labels and in their order |
| LegacyStore.ToggledSubtask | Tasker/ViewModel/TaskListViewModel.swift:126-142 | toggling subtask j flips its completion only |
| LegacyStore.LegacyTaskListViewModel.constructor | Tasker/ViewModel/TaskListViewModel.swift:18-29 | starts empty and not loading |
| LegacyStore.LegacyTaskListViewModel.BeginFetch | Tasker/ViewModel/TaskListViewModel.swift:73-76 | a fetch starts exactly when none is in progress |
| LegacyStore.LegacyTaskListViewModel.CompleteFetch | Tasker/ViewModel/TaskListViewModel.swift:77-103 | success installs the dirty-wins merge; failure sets the error; loading ends |
| LegacyStore.LegacyTaskListViewModel.UpdateTask | Tasker/ViewModel/TaskListViewModel.swift:108-116 | replaces the first cached task with the id, marks it dirty and buffers the edit |
| LegacyStore.LegacyTaskListViewModel.ToggleTaskCompletion | Tasker/ViewModel/TaskListViewModel.swift:119-123 | an update with completion flipped, marking the task dirty when it is cached |
| LegacyStore.LegacyTaskListViewModel.ToggleSubtaskCompletion | Tasker/ViewModel/TaskListViewModel.swift:126-142 | the cached parent with the subtask flipped is updated, or nothing when either is missing |
| LegacyStore.LegacyTaskListViewModel.Flush | Tasker/ViewModel/TaskListViewModel.swift:147-179 | empties the buffer and sends, per edited id, that id's last edit |
| LegacyStore.LegacyTaskListViewModel.CompleteUpdate | Tasker/ViewModel/TaskListViewModel.swift:160-179 | on success the batch's ids are no longer dirty; on failure the error is set |
| LegacyStore.LegacyTaskListViewModel.DismissError | Tasker/View/ContentView.swift:100-103 | the error is cleared |
| LegacyStore.EditThenFlush | Tasker/ViewModel/TaskListViewModel.swift:108-179 | under the explicit flush, the older client sends an edit made through updateTask |
| LegacyTaskRow.OverdueKept | Tasker/View/TaskRowView.swift:102-104 | overdue and due-today tasks stay in the due-date filter, and nothing later than today does |
| LegacyTaskRow.LegacyTaskRowEditor.constructor | Tasker/View/TaskRowView.swift:108-115 | a row starts not editing |
| LegacyTaskRow.LegacyTaskRowEditor.StartEditing | Tasker/View/TaskRowView.swift:108-115 | editing starts with the task's title |
| LegacyTaskRow.LegacyTaskRowEditor.CommitEdit | Tasker/View/TaskRowView.swift:117-124 | editing ends; a non-empty changed title is sent through updateTask |
| MultiSelect.IdSet | tasktrove-menubar/View/MultiSelectPickerView.swift:57-62 | the set of the items' ids |
| MultiSelect.BulkCaption | tasktrove-menubar/View/MultiSelectPickerView.swift:64 | the caption names the action a tap performs |
| MultiSelect.BulkToggleTwice | tasktrove-menubar/View/MultiSelectPickerView.swift:57-62 | with distinct ids, two taps from an empty selection come back to it |
| MultiSelect.DistinctIdCount | tasktrove-menubar/View/MultiSelectPickerView.swift:58 | distinct ids have as many ids as items |
| MultiSelect.StaleIdClearsSelection | tasktrove-menubar/View/MultiSelectPickerView.swift:58 | as written, a stale selected id makes an incomplete selection read as complete and a tap clears it |
| MultiSelect.IntendedBulkToggle | tasktrove-menubar/View/MultiSelectPickerView.swift:57-62 | the subset test never clears while an item is unselected, and agrees with the count test on well-formed selections |
| MultiSelect.MultiSelectPicker.constructor | tasktrove-menubar/View/MultiSelectPickerView.swift:74-83 | starts from the given items and selection |
| MultiSelect.MultiSelectPicker.TapBulk | tasktrove-menubar/View/MultiSelectPickerView.swift:57-62 | selects every item, or clears, by the count test |
| MultiSelect.MultiSelectPicker.SetOn | tasktrove-menubar/View/MultiSelectPickerView.swift:74-83 | switching an item on adds its id, off removes it, nothing else changes |
| ContentScreen.TapTwice | tasktrove-menubar/View/ContentView.swift:172-178 | a tap on another button selects it, a second tap on the selected button returns to All |
| ContentScreen.TapFilterButton | tasktrove-menubar/View/ContentView.swift:161-191 | a tap on the selected button shows All, any other selects it; the page resets and the category is persisted |
| ContentScreen.ToggledMembership | tasktrove-menubar/View/ContentView.swift:96-101 | the tapped id's membership flips and every other id is kept |
| ContentScreen.ToggleTwice | tasktrove-menubar/View/ContentView.swift:96-101 | toggling a label twice restores the selection |
| ContentScreen.TapLabel | tasktrove-menubar/View/ContentView.swift:96-101 | the label selection toggles and the page resets |
| ContentScreen.DisabledControlsMatchSkippedFilters | tasktrove-menubar/View/ContentView.swift:91-124 | while the project picker or label menu is disabled its filter is skipped, and while enabled it drops tasks that do not match |
| ContentScreen.TapRefresh | tasktrove-menubar/View/ContentView.swift:34 | an enabled refresh starts a fetch |
| ContentScreen.PeriodicRefresh | tasktrove-menubar/View/ContentView.swift:151-156 | the timer fetches only when no error shows and no fetch is running |
| ContentScreen.OnAppear | tasktrove-menubar/View/ContentView.swift:146-150 | appearing fetches only when the cache is empty |
| ContentScreen.DismissBanner | tasktrove-menubar/View/ContentView.swift:137-140 | dismissing clears the error |
| LegacyContentScreen.TapLabel | Tasker/View/ContentView.swift:49-55 | the label selection toggles |
| LegacyContentScreen.TickedLabelShowsItsTasks | Tasker/View/ContentView.swift:49-55 | ticking a label keeps every task carrying it; unticking the only label shows all tasks |
| LegacyContentScreen.TapRefresh | Tasker/View/ContentView.swift:20 | an enabled refresh starts a fetch |
| LegacyContentScreen.PeriodicRefresh | Tasker/View/ContentView.swift:114-119 | the timer fetches only when no error shows and no fetch is running |
| LegacyContentScreen.OnAppear | Tasker/View/ContentView.swift:109-113 | appearing fetches only when the cache is empty |
| LegacyContentScreen.DismissBanner | Tasker/View/ContentView.swift:100-103 | dismissing clears the error |

## Left out

- Timing of the Combine pipelines (the 500 ms debounce, the main-queue hops): a debounce window is the `pending` buffer and `Flush`.
- `collect()` without a count emits only when its upstream completes, and `updateSubject` is a `PassthroughSubject` that never completes (tasktrove-menubar/ViewModel/TaskListViewModel.swift:340-349, Tasker/ViewModel/TaskListViewModel.swift:147-157), so in both apps the debounced sink never runs. `Flush` models the windowed collect that the code's comment describes ("all updates that occurred during the window"), which the code does not implement.
- `async`/`URLSession` transport, `JSONEncoder`/`JSONDecoder`, `JSONSerialization`, `asDictionary` and the cached raw API response: responses are given as a status and a `Payload.Json` value.
- `NSNumber` bridging: `dict["shared"] as? Bool` and the other `as? Bool` reads also accept a JSON number 0 or 1, while `Decoding.BoolField` accepts only JSON booleans.
- `Calendar` and `Date` arithmetic: due dates are day numbers and "today" is a parameter.
- The `Double` conversion at the end of `Color(hex:)`: channels stay integer bytes.
- Unicode alphanumerics in the trim of `Color(hex:)`: only ASCII letters and digits count.
- `Scanner` overflow above 16 hex digits: only lengths 3, 6 and 8 reach a color, so it cannot matter.
- The order of `Dictionary` iteration: the coalesced batch keeps first-occurrence order, and the fallback search for an array field picks any array field.
- Task, project and label ids are strings throughout. The menubar `TodoTask.id` is optional and elsewhere the source mixes `UUID` and `String`. Absent labels and subtasks are empty lists.
- TaskStore.TaskListViewModel.SetSelectedProjectIDs: does not persist the selection, because the source's sink stores `Set<UUID>` while the view-model holds string ids.
- TaskStore.TaskListViewModel.SetSelectedLabelIDs: does not persist the selection, for the same reason.
- The menubar task's `dueTime`, `comments`, `attachments`, `createdAt`, `completedAt`, `recurring`, `recurringMode` and `estimation`, and the subtask's `estimation`: they are never read by the core, and `createDiff` does not send them.
- TaskDiff.CreateDiff: a change to a subtask's `estimation` alone makes `original.subtasks != modified.subtasks` true in the source and so sends a "subtasks" entry; the model has no such field and sends none.
- TaskStore.TaskListViewModel.CompleteFetch: requires that no two cached tasks share a dirty id only for a successful fetch, where the source's `Dictionary(uniqueKeysWithValues:)` would trap on a duplicate; the trap is modelled as a precondition.
- LegacyStore.LegacyTaskListViewModel.CompleteFetch: the same precondition for the Tasker refresh.
- The Tasker task's comments, attachments, creation date, status and recurring mode: they are carried but never read by the core.
- The menubar content view's project picker binding: it binds a property the view-model does not declare.
- `project(for:)`, `section(for:)` and the rendering of the views, pills, pager and detail sheets.
- The generic error message shown for a 403 response: the view-model shows the same message as for any failure.
- The current page is not clamped when a refresh shortens the list, as in the source, so it can exceed the last page.
- Dirty ids are not kept a subset of the cached ids, as in the source.
- The Tasker row's "N subtasks" caption and the periodic timer's interval.
- Keychain storage, mock services and the app entry points.

## Findings

| source | as written | input that shows it | evidently intended | confidence | as-written member | corrected member |
|---|---|---|---|---|---|---|
| tasktrove-menubar/ViewModel/TaskListViewModel.swift:218-224 | `updateTask` writes the edit into the cache before the debounced `sendUpdate` diffs each task against that same cache | a cached task whose title is edited through `updateTask`: the flush finds no difference and sends no request | diff against the cache as it was when the debounce window opened, so the last edit of each task is sent | high, not executed | WriteBack.DebouncedEditsNeverSent | WriteBack.FlushIntendedSendsLastEdit |
| tasktrove-menubar/View/MultiSelectPickerView.swift:58 | "all selected" is decided by comparing the selection's size with the item count | items p1, p2 with selection {p1, stale}: the caption reads "Deselect All" and a tap clears the selection although p2 is unselected | every item's id is in the selection | medium, not executed | MultiSelect.StaleIdClearsSelection | MultiSelect.IntendedBulkToggle |
