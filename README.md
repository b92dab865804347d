# Activity tracker core in Dafny

A model of the core of a small browser application that logs the movements
("activities") of crews. Each record has a time, a crew name, a head count,
a transport type, an establishment, a department, a link, a comment and, for
records pasted from a report, three status counts and a direction. The model
covers:

- the record store kept under one storage key: read, create with the next
  id, update by merging, delete by filtering, the two suggestion lists, and
  the Markdown export (`ActivityService`);
- the parser that turns a pasted `Label: value` report into a partial form
  (`ParseActivity`);
- the statistics the main screen shows: people by car and on foot, direction
  counts, and per-establishment figures ordered by event count (`AppStats`);
- the paste action and the screen-level handlers (`App`);
- the three form rows (`ActivityFormRow`, `EditableActivityRow`,
  `DetailsFormRow`): field updates, validation, building the object sent to
  the store, and the resets;
- the stored list of crew names (`NameAutocomplete`) and the two suggestion
  inputs (`Autocomplete`).

Supporting modules:

- `Wrappers` holds `Option` and `Result`.
- `Seqs` holds generic sequence facts, the filter and its order lemma.
- `JsText` holds the JavaScript string primitives the code relies on: `trim`,
  `toLowerCase`, `includes`, `startsWith`, `split`, `parseInt`, number to
  text, and the default sort order.
- `Types` holds the record, DTO and form types, and the whitelists for
  transport, department and direction.

Storage is a field of a class whose value is `Missing`, `Corrupt` or
`Stored(list)`. Each state-changing operation is a method whose `ensures`
gives the new stored value in terms of the old one. The pure parts are
functions with lemmas about them. The parser and the statistics folds are
loops proved equal to reference functions, and the properties are proved
about those functions.

Deleting a record does not renumber the others: `deleteActivity` only
filters the list (src/services/activityService.ts:57-61).

## Model

| member | source | states |
|---|---|---|
| ActivityService.Store.GetActivities | src/services/activityService.ts:6-13 | the stored list, or the empty list when nothing is stored or the stored text does not parse |
| ActivityService.Store.GetActivity | src/services/activityService.ts:16-19 | the result is the first stored record with the id, as `find` returns it; none exactly when no stored record has the id |
| ActivityService.Find | src/services/activityService.ts:18 | the first record with the id, or none iff no record has it |
| ActivityService.MaxId | src/services/activityService.ts:25 | the largest id of a non-empty list: no id exceeds it and some record has it |
| ActivityService.NextId | src/services/activityService.ts:24-26 | 1 for an empty list, otherwise one more than some stored id, and greater than every stored id |
| ActivityService.FromDto | src/services/activityService.ts:28-31 | the new record has the given id and the DTO's fields |
| ActivityService.Store.CreateActivity | src/services/activityService.ts:22-36 | the returned record has the next id and the DTO's fields, and the stored list is the old list with it appended; ids that were distinct stay distinct |
| ActivityService.CreateKeepsIdsUnique | src/services/activityService.ts:24-33 | appending the created record keeps ids pairwise distinct |
| ActivityService.FindIndex | src/services/activityService.ts:41 | the first position with the id, or none iff no record has the id |
| ActivityService.Merge | src/services/activityService.ts:47-50 | the merged record keeps the old id, takes every DTO field, and keeps the old status counts and direction when the DTO has none |
| ActivityService.Store.UpdateActivity | src/services/activityService.ts:39-54 | an absent id gives NotFound and leaves storage unchanged; otherwise only the first record with the id is replaced by the merge, and the length and order stay the same; ids that were distinct stay distinct |
| ActivityService.UpdateKeepsIdsUnique | src/services/activityService.ts:47-52 | replacing a record by its merge keeps ids pairwise distinct |
| ActivityService.Without | src/services/activityService.ts:59 | the survivors are exactly the records whose id differs |
| ActivityService.WithoutKeepsOrder | src/services/activityService.ts:59 | two survivors keep their relative order |
| ActivityService.WithoutAbsent | src/services/activityService.ts:59 | deleting an absent id changes nothing |
| ActivityService.WithoutIdempotent | src/services/activityService.ts:57-61 | deleting twice is deleting once |
| ActivityService.WithoutAppend | src/services/activityService.ts:59 | the filter distributes over concatenation |
| ActivityService.DeleteKeepsIdsUnique | src/services/activityService.ts:57-61 | deleting keeps ids pairwise distinct |
| ActivityService.Store.DeleteActivity | src/services/activityService.ts:57-61 | the stored list becomes the old list without the id's records, with no renumbering; ids that were distinct stay distinct |
| ActivityService.CreateDeleteCreate | src/services/activityService.ts:24-26 | after creating the only record and deleting it, the next id is 1 again: ids are reused |
| ActivityService.MainPersonValues | src/services/activityService.ts:66 | exactly the non-empty crew names of the store |
| ActivityService.EstablishmentValues | src/services/activityService.ts:73 | exactly the non-empty, non-null establishments of the store |
| ActivityService.UniqueMainPersons | src/services/activityService.ts:64-68 | strictly sorted, duplicate-free, and containing exactly the non-empty crew names |
| ActivityService.UniqueEstablishments | src/services/activityService.ts:71-75 | strictly sorted, duplicate-free, and containing exactly the non-empty establishments |
| JsText.StrictlySortedUnique | src/services/activityService.ts:66-67 | two strictly sorted lists with the same elements are equal, so any way of sorting the set gives the same list |
| ActivityService.Markdown | src/services/activityService.ts:78-131 | the export of a list: the empty-store text, or the header and one section per record |
| ActivityService.MarkdownEmptyIff | src/services/activityService.ts:81-83 | the export is the "no movements" text exactly when the store is empty |
| ActivityService.SectionsAppend | src/services/activityService.ts:92-128 | sections are emitted per record in storage order: the text for a concatenation is the concatenation of the texts |
| ActivityService.SectionOpening | src/services/activityService.ts:93-94 | every section opens with its `## Активність #id` heading and its time line |
| ActivityService.SectionNamesMainPerson | src/services/activityService.ts:109 | every section contains the `Стрім` line with the crew name, whatever else is missing |
| ActivityService.SectionEndsWithRule | src/services/activityService.ts:127 | every section ends with the `---` rule |
| ActivityService.SectionSplit | src/services/activityService.ts:93-127 | a section is its heading and time, the optional count, type and coordinates, the crew line, then the optional establishment, department, link and comment |
| ActivityService.WriteSection | src/services/activityService.ts:93-127 | the `+=` steps for one record append exactly that record's section |
| ActivityService.Store.ExportToMarkdown | src/services/activityService.ts:78-131 | the loop's text equals the export function of the stored list |
| ParseActivity.CleanLines | src/utils/parseActivity.ts:7-10 | the lines kept are exactly the non-empty trimmed lines of the text, each trimmed |
| ParseActivity.CleanLinesAppend | src/utils/parseActivity.ts:7-10 | the lines are kept in their order with repeats: cleaning a concatenation is cleaning each part and concatenating |
| ParseActivity.CleanLinesSingle | src/utils/parseActivity.ts:9-10 | a single line is kept, trimmed, exactly when it is not blank |
| ParseActivity.Dispatch | src/utils/parseActivity.ts:17-65 | the first label, in the `else if` order, that the line starts with, or none |
| ParseActivity.DispatchFindsTheLabel | src/utils/parseActivity.ts:17-65 | a line that starts with a label is dispatched to that label (no label is a prefix of another) |
| ParseActivity.Classify | src/utils/parseActivity.ts:15-83 | a classified line starts with its label and carries the value after it; an unclassified line starts with no label |
| ParseActivity.TimeOf | src/utils/parseActivity.ts:50-53 | none iff the text has no `dd:dd:dd`; otherwise the `HH:MM` of its leftmost occurrence |
| ParseActivity.FirstTimeFrom | src/utils/parseActivity.ts:50 | the leftmost position at or after the start where the pattern matches, or none when it matches nowhere |
| ParseActivity.Bucket | src/utils/parseActivity.ts:67-81 | a bucket exists iff the count is non-empty and the status is one of the three known ones; exactly one colour gets the count, the others get "" |
| ParseActivity.Apply | src/utils/parseActivity.ts:17-82 | each branch keeps the loop's `participantsCount` variable equal to the parsed count, so the fallback to the parsed count on readiness lines never changes what is read |
| ParseActivity.ClassifyLabelled | src/utils/parseActivity.ts:17-65 | a line that starts with a label is classified under that label, with the value after the label |
| ParseActivity.Run | src/utils/parseActivity.ts:12-83 | after any number of lines, the count variable still mirrors the parsed count |
| ParseActivity.ParseActivityFromClipboard | src/utils/parseActivity.ts:3-90 | the loop's result equals the reference parse of the text |
| ParseActivity.LastValue | src/utils/parseActivity.ts:17-45 | the last non-empty value given to the label by some line |
| ParseActivity.RunTextField | src/utils/parseActivity.ts:17-45 | link, crew, count, comment and coordinates each hold the last non-empty value given to them; an empty value leaves the field alone; the count stays raw text |
| ParseActivity.LastType | src/utils/parseActivity.ts:56-63 | the last type line's transport, always `walk` or `car` |
| ParseActivity.RunType | src/utils/parseActivity.ts:56-63 | the transport is `walk` iff the last type line says `Особовий склад`, `car` for any other value including empty |
| ParseActivity.RunTime | src/utils/parseActivity.ts:47-54 | the time is that of the last detection line holding the pattern; lines without it leave the time alone |
| ParseActivity.RunStatus | src/utils/parseActivity.ts:65-82 | green, yellow and red are set together by the last readiness line that has a count above it and a known status; otherwise none of them is set |
| ParseActivity.RunLeavesOtherKeys | src/utils/parseActivity.ts:15-83 | the parser never sets establishment, department or direction |
| ParseActivity.NothingSetIff | src/utils/parseActivity.ts:85 | nothing is set exactly when no label got a value and there is no type line, no time and no status bucket |
| ParseActivity.ParseNullIff | src/utils/parseActivity.ts:85 | the parser returns null exactly when no line of the text set anything |
| ParseActivity.NoLabelsNoResult | src/utils/parseActivity.ts:15-85 | a text with no labelled line parses to null |
| AppStats.OfTransport | src/App.tsx:192 | exactly the records with the given transport |
| AppStats.Untyped | src/App.tsx:191-202 | exactly the records with no transport |
| AppStats.TotalPeopleBy | src/App.tsx:191-202 | the loop's sum is the head count, with null as 0, over the records with the transport |
| AppStats.TotalAppend | src/App.tsx:191-202 | the head count of a concatenation is the sum of the head counts |
| AppStats.PeopleSplit | src/App.tsx:191-202 | people by car plus people on foot plus people with no transport is everyone, so untyped records count in neither total |
| AppStats.DirectionsOfSnoc | src/App.tsx:205-217 | one more record adds one to exactly the counter of its direction, or to none |
| AppStats.DirectionStats | src/App.tsx:205-217 | the loop's plus, minus and equals are the numbers of records with `+`, `-` and `=` |
| AppStats.DirectionsCover | src/App.tsx:205-217 | the three counts plus the records with no direction make up the list, so other directions are counted nowhere |
| AppStats.OnFootAt | src/App.tsx:220-223 | exactly the `walk` records with a non-empty establishment |
| AppStats.KeysMembers | src/App.tsx:224-232 | the keys are exactly the establishments of the records, each listed once |
| AppStats.GroupMembers | src/App.tsx:224-243 | a group holds exactly the records for its establishment |
| AppStats.KeysSnoc | src/App.tsx:226-232 | an establishment is added to the keys the first time it is seen |
| AppStats.GroupSnoc | src/App.tsx:233-241 | a record joins only its own establishment's group |
| AppStats.TallySnoc | src/App.tsx:233-241 | adding a record adds one event, its head count and its direction to its group's figures |
| AppStats.GroupOfAbsent | src/App.tsx:226-232 | an establishment never seen has an empty group |
| AppStats.TalliesDomain | src/App.tsx:224-243 | the accumulator's keys are exactly the establishments seen |
| AppStats.TalliesValues | src/App.tsx:224-243 | each accumulator entry is the events, people and directions of its establishment's group |
| AppStats.EstablishmentStats | src/App.tsx:220-243 | the loop builds a map whose keys are the on-foot establishments in first-seen order, each mapped to its group's figures |
| AppStats.EntryRows | src/App.tsx:245-249 | one row per key, in key order, holding that key's figures |
| AppStats.SummaryRows | src/App.tsx:220-249 | the rows name distinct, non-empty establishments, each with at least one event |
| AppStats.SnocDescending | src/App.tsx:250 | appending a row no larger than the others keeps the order descending |
| AppStats.InsertByEvents | src/App.tsx:250 | inserting keeps the rows descending by events and adds exactly the new row |
| AppStats.SortByEvents | src/App.tsx:250 | the rows end up descending by events and are a permutation of the input |
| AppStats.EstablishmentStatsArray | src/App.tsx:220-250 | the statistics array is the sorted summary of the on-foot establishments |
| App.TrimmedOrNull | src/App.tsx:165-172 | null iff the text is missing or blank; otherwise the trimmed non-empty text |
| App.PasteDto | src/App.tsx:143-179 | no record iff the trimmed crew is empty. The time defaults to `00:00`, and a missing part to `00`. A missing count is 1, any other count its `parseInt`. The transport, department and direction are the parsed text when whitelisted (`walk`/`car`, the two units, `+`/`-`/`=`) and null otherwise. Each status count is null when empty and its `parseInt` otherwise. Coordinates, establishment, link and comment are each the trimmed parsed text, or null when missing or blank |
| App.PasteTimeDefault | src/App.tsx:144-147 | a parse with no time gives hour `00` and minute `00` |
| App.PasteNeedsCrew | src/App.tsx:136-179 | pasted text is created iff some line gives a crew, and the created crew is that of the last such line |
| App.PasteLeavesOtherKeys | src/App.tsx:159-170 | a pasted record has no establishment, department or direction, because the parser never sets them |
| App.PastedCount | src/App.tsx:149-151 | the pasted count is `parseInt` of the last count line, or 1 without one |
| App.PastedTime | src/App.tsx:144-147 | the pasted hour and minute are the two-digit parts of the last detected time, or `00` and `00` without one |
| App.TimeParts | src/utils/parseActivity.ts:50-53 | a found time is two digits, a colon and two digits |
| App.ValueTrimmed | src/utils/parseActivity.ts:18-44 | every value a label hands over is trimmed |
| App.App.constructor | src/App.tsx:20-29 | mounting leaves nothing in edit and loads the stored list |
| App.App.LoadActivities | src/App.tsx:31-42 | the list on screen becomes the stored list |
| App.App.HandleCreate | src/App.tsx:44-54 | the record is created with the next id and the list is reloaded |
| App.App.HandleUpdate | src/App.tsx:56-68 | editing is cleared only after a successful update; a missing id leaves the store, the list and the edit state unchanged |
| App.App.HandleDelete | src/App.tsx:70-80 | the store is changed only when the confirmation is true |
| App.App.HandleEdit | src/App.tsx:82-84 | the record goes into edit |
| App.App.HandleCancelEdit | src/App.tsx:93-95 | nothing is in edit afterwards |
| App.App.HandlePasteActivity | src/App.tsx:133-187 | unreadable, unrecognised or crewless text creates nothing; otherwise the pasted DTO is created under the next id |
| ActivityFormRow.TrimOrNull | src/components/ActivityFormRow.tsx:120-127 | null iff the text is blank; otherwise the trimmed, non-empty text |
| ActivityFormRow.BuildActivityDto | src/components/ActivityFormRow.tsx:94-128 | nothing iff the time is empty or the crew blank. The hour and minute are the two parts of the time split on `:`. The crew is trimmed and non-empty. The count is null when empty, otherwise its `parseInt`. The transport and department are the typed text when whitelisted and null otherwise. Coordinates, establishment, link and comment are each the trimmed field, or null when blank. No status keys are sent |
| ActivityFormRow.BuildCount | src/components/ActivityFormRow.tsx:113-115 | the count is null for an empty field, otherwise `parseInt` of it |
| ActivityFormRow.OrZeroes | src/components/ActivityFormRow.tsx:41-43 | `00` for an empty part, the part itself otherwise |
| ActivityFormRow.FormFromActivity | src/components/ActivityFormRow.tsx:38-54 | the edit form of a record: `HH:MM` with `00` for a missing part, the count as text, `walk` for a missing transport, the crew as stored, and the department, coordinates, establishment, link and comment as stored, each `""` when missing |
| ActivityFormRow.DefaultForm | src/components/ActivityFormRow.tsx:26-36 | the current time, transport `walk`, and every other field empty |
| ActivityFormRow.TrimOrNullOfField | src/components/ActivityFormRow.tsx:48-53 | an optional text shown in the form and read back through trim-or-null is unchanged |
| ActivityFormRow.TimeRoundTrip | src/components/ActivityFormRow.tsx:41-43 | the form's time splits back into the defaulted hour and minute |
| ActivityFormRow.CountRoundTrip | src/components/ActivityFormRow.tsx:46 | a count shown as text and read back with `parseInt` is unchanged |
| ActivityFormRow.WhitelistRoundTrip | src/components/ActivityFormRow.tsx:47-51 | every transport and department passes its whitelist back unchanged |
| ActivityFormRow.EditRoundTrip | src/components/ActivityFormRow.tsx:38-128 | saving an untouched edit form returns the record's fields, except that an empty hour or minute becomes `00` and a missing transport becomes `walk` |
| ActivityFormRow.NullTransportSavedAsWalk | src/components/EditableActivityRow.tsx:21 | saving, untouched, a record with no transport sends `walk` |
| ActivityFormRow.ActivityFormRow.constructor | src/components/ActivityFormRow.tsx:26-69 | mounting fills the form from the record in edit, or with the defaults |
| ActivityFormRow.ActivityFormRow.EditingActivityChanged | src/components/ActivityFormRow.tsx:38-69 | the form is refilled from the new record in edit, or reset |
| ActivityFormRow.ActivityFormRow.HandleChange | src/components/ActivityFormRow.tsx:71-79 | only the named field changes |
| ActivityFormRow.ActivityFormRow.HandleSubmit | src/components/ActivityFormRow.tsx:91-149 | the submitted object is the form's DTO, or nothing. After a resolved submit in create mode the form is reset to the defaults; otherwise it keeps what was typed |
| Types.WithField | src/components/ActivityFormRow.tsx:75-78 | the named field takes the value and every other field is unchanged |
| Types.TransportOf | src/components/ActivityFormRow.tsx:116-119 | a transport exactly for `walk` and `car`, and it prints back as the same text |
| Types.DepartmentOf | src/components/ActivityFormRow.tsx:122-125 | a department exactly for `літуни` and `тіхоні`, and it prints back as the same text |
| Types.DirectionOf | src/App.tsx:159-164 | a direction exactly for `+`, `-` and `=`, and it prints back as the same text |
| EditableActivityRow.EditableActivityRow.constructor | src/components/EditableActivityRow.tsx:18-28 | the initial form is the record's form |
| EditableActivityRow.EditableActivityRow.HandleChange | src/components/EditableActivityRow.tsx:30-38 | only the named field changes |
| EditableActivityRow.EditableActivityRow.HandleSave | src/components/EditableActivityRow.tsx:48-91 | nothing is saved iff the time is empty or the crew blank; otherwise the row's own record id is sent with the form's DTO |
| DetailsFormRow.WithDetail | src/components/DetailsFormRow.tsx:38-46 | the named field takes the value and every other field is unchanged |
| DetailsFormRow.DefaultDetailForm | src/components/DetailsFormRow.tsx:22-36 | the current time, transport `walk`, and every other field empty |
| DetailsFormRow.BuildDetailDto | src/components/DetailsFormRow.tsx:55-77 | nothing iff the time is empty. The hour and minute come from splitting the time. The crew is trimmed, and an empty crew is allowed. The head count and the three status counts are each null when empty, otherwise their `parseInt`. Coordinates, link and comment are each the trimmed field, or null when blank |
| DetailsFormRow.BlankCrewAccepted | src/components/DetailsFormRow.tsx:55-67 | a blank crew does not block the submit and is sent as "" |
| DetailsFormRow.StatusCounts | src/components/DetailsFormRow.tsx:72-74 | each status count is null when empty, otherwise `parseInt` of it |
| DetailsFormRow.IgnoredFields | src/components/DetailsFormRow.tsx:64-77 | the transport, direction, establishment and department never reach the detail object |
| DetailsFormRow.PastedText | src/components/DetailsFormRow.tsx:138-160 | the clipboard's text, or the fallback paste's text when the clipboard cannot be read |
| DetailsFormRow.DetailsFormRow.constructor | src/components/DetailsFormRow.tsx:22-36 | the form starts from the defaults, with no clipboard text seen |
| DetailsFormRow.DetailsFormRow.HandleChange | src/components/DetailsFormRow.tsx:38-46 | only the named field changes |
| DetailsFormRow.DetailsFormRow.HandleSubmit | src/components/DetailsFormRow.tsx:52-100 | nothing is sent iff the time is empty; otherwise the parent id and the detail are sent, and a resolved submit resets the form |
| DetailsFormRow.DetailsFormRow.CheckClipboard | src/components/DetailsFormRow.tsx:112-124 | the remembered clipboard text, or "" when it cannot be read; the program runs it on mount and whenever the link changes, and in the model the caller makes that call, so `HandlePasteLink` itself leaves the remembered text alone |
| DetailsFormRow.DetailsFormRow.HandlePasteLink | src/components/DetailsFormRow.tsx:129-178 | the link becomes the pasted text iff it is an `http:` or `https:` URL; otherwise the form is unchanged |
| DetailsFormRow.DetailsFormRow.SetGreenCount | src/components/DetailsFormRow.tsx:275-277 | only the green count changes |
| DetailsFormRow.DetailsFormRow.SetYellowCount | src/components/DetailsFormRow.tsx:278-280 | only the yellow count changes |
| DetailsFormRow.DetailsFormRow.SetRedCount | src/components/DetailsFormRow.tsx:281-283 | only the red count changes |
| NameAutocomplete.ReadNames | src/utils/nameAutocomplete.ts:16-23 | the stored list, or the empty list when nothing is stored or it does not parse |
| NameAutocomplete.NameStore.GetNames | src/utils/nameAutocomplete.ts:16-23 | the stored list, or the empty list when nothing is stored or it does not parse |
| NameAutocomplete.NameStore.SaveName | src/utils/nameAutocomplete.ts:3-14 | a blank name or a name already present leaves storage untouched; otherwise the trimmed name is appended and the list written back |
| NameAutocomplete.SavedShape | src/utils/nameAutocomplete.ts:3-14 | saving never removes or reorders and adds at most one name. A blank name changes nothing, and a saved name is present afterwards, trimmed |
| NameAutocomplete.SavedDistinct | src/utils/nameAutocomplete.ts:10-13 | a duplicate-free list stays duplicate-free |
| NameAutocomplete.SavedIdempotent | src/utils/nameAutocomplete.ts:3-14 | saving the same name twice is saving it once |
| NameAutocomplete.Matching | src/utils/nameAutocomplete.ts:29-32 | exactly the names whose lower-case form contains the lower-case query |
| NameAutocomplete.FilterByQuery | src/utils/nameAutocomplete.ts:25-33 | a blank query returns the list unchanged; any other query returns the matching subsequence of the list, in list order with repeats kept (ordered by the order lemma), and exactly the matching names |
| NameAutocomplete.MatchingOrder | src/utils/nameAutocomplete.ts:30-32 | the filter is the order-preserving subsequence of matching names: strictly increasing positions, and every matching position is taken |
| NameAutocomplete.FilterIgnoresQueryCase | src/utils/nameAutocomplete.ts:29-32 | the query's case does not matter |
| NameAutocomplete.MatchingSameQuery | src/utils/nameAutocomplete.ts:29-32 | two queries with the same lower-case form select the same names |
| NameAutocomplete.LowerBlank | src/utils/nameAutocomplete.ts:27-29 | lower-casing keeps a blank query blank and a non-blank one non-blank |
| NameAutocomplete.NameStore.FilterNames | src/utils/nameAutocomplete.ts:25-33 | the stored list filtered by the query |
| Seqs.FilterPositions | src/components/NameAutocomplete.tsx:60-62 | a filter's result is read off strictly increasing positions that take every element passing the test |
| Autocomplete.FieldOf | src/components/NameAutocomplete.tsx:68 | the name input reports as `mainPerson`, the establishment input as `establishment` |
| Autocomplete.AutocompleteInput.Visible | src/components/NameAutocomplete.tsx:121-133 | what is rendered is the suggestions exactly when they are shown |
| Autocomplete.AutocompleteInput.constructor | src/components/NameAutocomplete.tsx:13-37 | the input shows the value, nothing is suggested, and the list is the loaded one, or empty when loading fails |
| Autocomplete.AutocompleteInput.ValueChanged | src/components/NameAutocomplete.tsx:39-41 | the input follows the form's value and nothing else changes |
| Autocomplete.AutocompleteInput.InputChange | src/components/NameAutocomplete.tsx:65-78 | the new value always goes up under the input's field name. A blank value clears and hides the suggestions. Any other value suggests the matching names, shown iff there are any |
| Autocomplete.AutocompleteInput.SelectSuggestion | src/components/EstablishmentAutocomplete.tsx:76-80 | the input takes the suggestion, reports it, and hides the list |
| Autocomplete.AutocompleteInput.Dismiss | src/components/NameAutocomplete.tsx:86-91 | the list is hidden and nothing else changes |
| Autocomplete.AutocompleteInput.Focus | src/components/EstablishmentAutocomplete.tsx:96-111 | the list is refreshed. The suggestions are the refreshed list filtered by the input, or all of it for a blank input, shown iff there are any |
| JsText.TrimShape | src/utils/parseActivity.ts:9 | `trim` returns a trimmed string no longer than its input |
| JsText.BlankIffAllSpace | src/utils/nameAutocomplete.ts:4 | a text trims to empty exactly when it is all whitespace |
| JsText.TrimIdempotent | src/components/ActivityFormRow.tsx:112 | trimming twice is trimming once |
| JsText.ContainsIffOccurs | src/utils/nameAutocomplete.ts:31 | `includes` holds exactly when the needle occurs at some offset |
| JsText.StartsWithIsPrefix | src/utils/parseActivity.ts:17 | `startsWith` is the prefix relation |
| JsText.JoinSplit | src/components/ActivityFormRow.tsx:106 | joining the parts of a split with the separator gives back the text |
| JsText.FirstTwoOfJoined | src/components/ActivityFormRow.tsx:106 | splitting `a:b` with no colon in `a` or `b` gives back `a` and `b` |
| JsText.ParseIntToString | src/components/ActivityFormRow.tsx:46 | `parseInt` of a number's text is that number |
| JsText.SortedUnique | src/services/activityService.ts:66-67 | the distinct elements of a list in ascending order |

## Left out

- Storage is an in-memory value, not `localStorage`. JSON encoding and a stored value that is not an array are not modelled. Text that does not parse is the `Corrupt` value, and reading it gives the empty list.
- Promises and `await` are sequential calls. Alerts, toasts, `console` output, rendering, CSS, timers and mouse listeners are left out. The blur delay and the click outside become one immediate `Dismiss`.
- The current time of `getCurrentTime` is a parameter (`now`). The `confirm` dialog is a boolean parameter. The clipboard text is a parameter, `None` when reading fails.
- `new URL(text).protocol` is a function parameter of `IsValidUrl`, `None` when the constructor throws.
- DetailsFormRow.DetailsFormRow.HandlePasteLink: the scratch text area of the fallback paste is not modelled. What the fallback reads is a parameter, `None` when the paste command fails.
- `toLowerCase` is modelled for Latin A-Z, Cyrillic U+0400-U+042F and Ґ only. Other characters are left as they are.
- `trim` uses the exact ECMAScript whitespace set. Characters are Unicode scalar values and not UTF-16 code units.
- JsText.ParseInt: `parseInt` reads optional whitespace and a sign, then leading decimal digits (or hex after `0x`); `None` stands for the `NaN` it returns otherwise. The program writes a `NaN` count into the stored JSON, which turns it into `null`; the list reloaded after each change therefore shows no count, and the model stores `None` directly.
- A time with no `:` splits into one part. The model reads the missing minute as `""`; JavaScript gives `undefined`. This matters only for a form time that is not `HH:MM`.
- The default `sort` is modelled as code-point order. That agrees with the UTF-16 order the browser uses on the Basic Multilingual Plane.
- AppStats.SortByEvents: it is a stable insertion sort, and `Array.prototype.sort` is stable too. Rows with equal event counts can still come out in another order than the program's only because the input order differs (see the key order of `Object.entries` below), so for ties only the permutation is promised.
- AppStats.EstablishmentStats: groups are in order of first appearance. JavaScript objects list integer-like keys (an establishment named `12`) first, in numeric order, before the others.
- AppStats.EstablishmentStats: the program's accumulator is a plain `{}`, so an establishment named like an inherited property (`constructor`, `toString`, `valueOf`, `hasOwnProperty`, `__proto__` and the other `Object.prototype` names) finds a truthy entry already there and no row is created. The program then adds `NaN` counters to that inherited object and drops the row from `Object.entries`. If the record has a direction, it throws a `TypeError` while rendering. The model gives such an establishment an ordinary row.
- AppStats.EstablishmentStatsArray: inherits both gaps of the establishment fold above, namely the key order for integer-like names and the missing or failing row for inherited property names.
- Counts and sums are JavaScript doubles in the program and unbounded integers in the model. Precision lost above 2^53 and the exponent notation of large numbers in `toString` (`1e+21`) are not modelled.
- A record's `greenCount`, `yellowCount`, `redCount` and `direction` are in the `Marks` part. The declared interfaces omit these keys, but the paste action writes them and the statistics read `direction`.
- `addDetailToActivity`, `deleteDetailFromActivity`, `copyMarkdownToClipboard` and the detail object's type are imported or used but never defined, so they are not modelled. The App handlers for details and for the export button, and the detail list of a record, are left out with them.
- `downloadMarkdown` (a file download through browser objects) is not modelled.
- The 30-character link shortening of the table and the status popup's own rendering are presentation only.
- handleRefreshTime, handleCancel and the loading flags do not affect data. They are left out.
