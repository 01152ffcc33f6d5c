# Investor kanban board: a verified model of its list logic

The application is a kanban board for a fund-raising pipeline. Each card is
an investor record with an id, a name, a type, a description, one of six
pipeline statuses, an optional minimum and maximum investment, a creation
time, an e-mail address and a LinkedIn link. The board keeps all records in
one flat list. The list is imported from a spreadsheet, loaded from and
saved to a remote store, edited through a form, rearranged by drag and drop,
searched, and summarised on an analytics page.

This project models that list and the rules that read and rewrite it, and
proves what those rules promise:

- `values.dfy` (module `Values`): the JavaScript values that the records
  hold at run time. It covers truthiness, property lookup, `||` defaults,
  `Number()`, template-literal text, `trim`-blankness, `toLowerCase`,
  `includes` and the `/\s+/g` replacement.
- `constants.dfy` (`KanbanConstants`): the status table and the column
  colours.
- `excel.dfy` (`ExcelParser`): the record type and the mapping of
  spreadsheet rows to records.
- `api.dfy` (`Api`): the remote-store client without its transport. It
  covers the save validator, the gates, both bounded retry loops, the load
  payload shape chain with its per-record normalisation, and a save
  followed by a reload.
- `lists.dfy` (`InvestorLists`): the array operations the board uses on its
  list: `find`, `findIndex`, `filter`, `splice` and status relabelling,
  with their algebra.
- `drag.dfy` (`DragAndDrop`): drop resolution, the midpoint rule and the
  drag handlers' state (class `DragController`).
- `storage.dfy` (`KanbanStorage`):
  - the board's completeness check and how it relates to the save
    validator;
  - the debounced auto-save as a state machine (class `AutoSaver`);
  - the manual save.
- `actions.dfy` (`InvestorActions`): saving an edited or new record,
  deleting a record, and the editor state (class `ActionsState`).
- `editmodal.dfy` (`EditModal`): the distinct-type list, the form state
  (class `EditForm`) and the record the form builds.
- `analytics.dfy` (`Analytics`): status counts, chart data, the on-board
  investment totals and the chart flags.
- `board.dfy` (`KanbanBoard`) and `column.dfy` (`KanbanColumn`): the search
  filter, the visible statuses, the colour lookup, the column projection
  and the droppable ids.

Everything outside the program is passed in as a parameter. That covers
request outcomes, `JSON.parse`, `Number()` on text, clocks and fresh
uuids. Waits before retries are returned as their lengths in milliseconds.

## Model

| member | source | states |
|---|---|---|
| Values.Or | src/utils/excelParser.ts:44-46 | the `or` default: a truthy value is kept; a falsy or missing one gives the default |
| Values.ToNumber | src/services/api.ts:356 | `Number(v)`: a number is itself, an object is NaN, null is 0; text goes through the number parser |
| Values.JsText | src/hooks/useInvestorActions.ts:103-105 | a string renders as itself in a template literal; only arrays are left unrendered |
| Values.Lower | src/components/KanbanBoard.tsx:75 | `toLowerCase` keeps the length and lowers each character |
| Values.ReplaceWhitespaceRuns | src/components/KanbanColumn.tsx:70 | replacing white-space runs by a white-space-free text leaves no white space; text without white space is unchanged |
| Values.NatToStringInjective | src/utils/excelParser.ts:43 | different numbers have different decimal renderings |
| Values.GeneratedIdIndex | src/utils/excelParser.ts:43 | two equal ids `investor-<ts>-<index>` have the same index, whatever their timestamps |
| KanbanConstants.StatusTable | src/constants/kanbanConstants.ts:13-20 | six statuses, pairwise distinct; the first is "Da contattare", the fifth "A bordo!", the sixth "Drop definitivo" |
| KanbanConstants.ColorsMatchStatuses | src/constants/kanbanConstants.ts:4-11 | there is one colour per status |
| ExcelParser.StatusUnionIsTable | src/utils/excelParser.ts:17-23 | the `InvestorStatus` union and the status table hold the same six values |
| ExcelParser.RowToInvestor | src/utils/excelParser.ts:42-53 | definition of one imported record from one row and the clock readings taken for it; its fields are stated by ParseRows |
| ExcelParser.ParseRows | src/utils/excelParser.ts:42-53 | one record per row, in row order. Each has a generated id, status "Da contattare" and the import time. A falsy name cell gives 'Senza nome' and other falsy text cells ''; a truthy name, type, description, email or LinkedIn cell is kept as it is. An amount is absent iff its cell is falsy, otherwise it is `Number(cell)` |
| ExcelParser.ImportIdsDistinct | src/utils/excelParser.ts:43 | the records of one import have pairwise different ids |
| Api.RecordValid | src/services/api.ts:29-73 | definition of the per-record checks of `validateInvestorsData`: non-empty string id, name, status and createdAt; string type, description, email and linkedin |
| Api.ValidInvestorsData | src/services/api.ts:22-78 | definition of what the validator accepts: a non-empty list of valid records; ValidateInvestorsData is proved equal to it |
| Api.ValidateInvestorsData | src/services/api.ts:22-78 | accepts exactly a non-empty list whose records have non-empty string id, name, status and createdAt, and string type, description, email and linkedin |
| Api.EmptyListInvalid | src/services/api.ts:23-26 | the empty list is refused |
| Api.ExportFileName | src/services/api.ts:86-103 | the export is refused iff the data do not validate; the file is `<jsonId>.json`, or `investors.json` without a project id |
| Api.SaveGateOf | src/services/api.ts:134-151 | a save proceeds iff there is a project id and the data validate; a missing id is reported first |
| Api.Backoff | src/services/api.ts:214 | the wait before retry `k` (0-based) is 1000·(k+1) ms |
| Api.SaveInvestors | src/services/api.ts:131-220 | a closed gate gives false with no request. Otherwise 1 to 3 requests are made; every request before the last failed, and the result is the last one's outcome. A failure means all three failed. The waits are the backoff sequence |
| Api.SaveNeedsIdAndValidData | src/services/api.ts:134-151 | without a project id or with invalid data, no request is sent |
| Api.TrackCardUpdate | src/services/api.ts:226-270 | the metadata note takes exactly one request when there is a project id, and none otherwise |
| Api.WrappedAmount | src/services/api.ts:350-370 | array and `data` paths: a truthy number is kept; `{_type:'undefined'}` and falsy values are absent; any other object with a `value` key gives `Number(value)`, or absent when that is NaN; an object without `value`, and truthy text, `true` or an array, are absent; a kept value is finite, and 0 is kept only from a `{value: v}` wrapper |
| Api.PlainAmount | src/services/api.ts:458-459 | key-scan and single-record paths: any number, 0 included, is kept; anything else is absent |
| Api.NormaliseRecord | src/services/api.ts:373-384 | falsy id, name, status and createdAt get `investor-<ts>-<index>`, 'Unnamed Investor', 'Da contattare' and the current time; falsy text fields get ''; every truthy value of those eight fields is kept. Both investment bounds follow the wrapped-object rule on the array and `data` paths and the plain-number rule on the others |
| Api.NormaliseAll | src/services/api.ts:344 | the `map` gives one normalised record per element, in order, and throws iff an element is null |
| Api.FirstArrayField | src/services/api.ts:449-450 | the for-in scan finds the first property, in key order, whose value is an array |
| Api.PayloadOf | src/services/api.ts:317-339 | definition of the data taken from the proxy response: the parsed `contents` when both are truthy, the raw contents when they do not parse, else the response itself; its round trip is stated by ReloadAfterSave |
| Api.ProcessPayload | src/services/api.ts:342-521 | a payload that is neither an array nor an object throws, so the attempt is retried |
| Api.ArrayPayloads | src/services/api.ts:342-447 | a bare array, or an object whose `data` is an array, loads one record per element unless an element is null; record i is element i completed with defaults under the wrapped-object amount rule |
| Api.KeyScanPayload | src/services/api.ts:449-475 | records found by the key scan come from the first array-valued property, and only when `data` is not an array; record k is element k of that array completed under the plain-number amount rule |
| Api.KeyScanLoads | src/services/api.ts:449-464 | an object without a `data` array but with an array-valued property loads through the first such property, named by its key, iff no element is null; record k is element k completed under the plain-number amount rule |
| Api.ObjectPayloads | src/services/api.ts:478-512 | an object with no array-valued property loads exactly one record, the object itself completed under the plain-number amount rule, iff it has an `id` key, and none otherwise |
| Api.AttemptResult | src/services/api.ts:300-342 | definition of one load request: a failed request throws, a received one is its payload put through the shape chain; LoadWithRetries and GetInvestors are stated over it |
| Api.LoadWithRetries | src/services/api.ts:286-542 | 1 to 3 requests are made, stopping at the first that loads. Every earlier request threw, the waits are the backoff sequence, and the result is the loaded records, or [] when all three threw |
| Api.GetInvestors | src/services/api.ts:276-544 | no project id gives [] with no request. Otherwise every request before the last threw, the waits are the backoff sequence, and the result is the last attempt's records, or [] after three failures |
| Api.ToJson | src/services/api.ts:163 | a record as `JSON.stringify` writes it is an object |
| Api.LookupToJson | src/services/api.ts:163 | each property of a saved record reads back as the record's field, and an undefined amount is not written |
| Api.SavedFields | src/services/api.ts:163 | the ten fields of a saved record read back unchanged |
| Api.NormaliseToJson | src/services/api.ts:373-384 | normalising a saved valid record whose amounts are non-zero numbers gives it back unchanged |
| Api.ReloadAfterSave | src/services/api.ts:321-394 | loading a saved list of valid records with non-zero amounts gives the same list |
| Api.ZeroAmountLostOnReload | src/services/api.ts:350-359 | an amount of 0 is saved but comes back absent |
| Api.NormalisedStringsAreValid | src/services/api.ts:373-384 | a loaded object whose present text fields are strings normalises to a record the save validator accepts |
| Api.DataArrayOfOne | src/services/api.ts:395-447 | `{data:[x]}` with `x` not null loads exactly the one record `x` completes to, through the `data` path |
| Api.ExampleRecord | src/services/api.ts:403-436 | `{id:"1", investmentMin:{value:"500"}}` completes to id "1", the default name and status, investmentMin 500, no investmentMax, and empty text fields |
| Api.DataPayloadExample | src/services/api.ts:395-447 | `{data:[{id:"1", investmentMin:{value:"500"}}]}` loads one record with investmentMin 500 and every other field defaulted |
| InvestorLists.FindIndex | src/hooks/useDragAndDrop.ts:250 | `findIndex` by id gives the first index holding the id, or -1 iff no record has it |
| InvestorLists.Find | src/hooks/useInvestorActions.ts:58 | `find` by id succeeds iff some record has the id, and returns such a record |
| InvestorLists.Without | src/hooks/useInvestorActions.ts:124 | `filter` by id never lengthens the list |
| InvestorLists.WithoutCount | src/hooks/useInvestorActions.ts:124 | removal by id keeps every copy of a record with another id and none of one with the id |
| InvestorLists.WithoutMembers | src/hooks/useInvestorActions.ts:124 | removal by id keeps exactly the records with another id |
| InvestorLists.WithoutAbsent | src/hooks/useDragAndDrop.ts:247 | removing an id no record has changes nothing |
| InvestorLists.WithoutSingle | src/hooks/useDragAndDrop.ts:247 | removing an id held only at index k drops exactly that record |
| InvestorLists.WithoutHasNoId | src/hooks/useInvestorActions.ts:124 | no remaining record has the removed id |
| InvestorLists.WithoutInserted | src/hooks/useDragAndDrop.ts:247-257 | putting a record with the id into a list without it, then removing the id, gives the list back |
| InvestorLists.WithoutIdempotent | src/hooks/useInvestorActions.ts:124 | removal by id is idempotent |
| InvestorLists.WithoutSublist | src/hooks/useInvestorActions.ts:124 | removal by id leaves an order-preserving sublist |
| InvestorLists.SpliceStart | src/hooks/useDragAndDrop.ts:254-256 | the position `splice` acts on: in range it is the start, past the end it is the end, negative counts from the end |
| InvestorLists.SpliceInsert | src/hooks/useDragAndDrop.ts:254-256 | `splice(start, 0, x)` grows the list by x, at that position, with the prefix and suffix unchanged |
| InvestorLists.Relabel | src/hooks/useDragAndDrop.ts:186-191 | the status `map` keeps the length and changes exactly the records with the id |
| InvestorLists.RelabelOnlyStatus | src/hooks/useDragAndDrop.ts:279-284 | relabelling changes only the status of the records with the id, to the new status; every position and every other field is kept |
| InvestorLists.RelabelWithout | src/hooks/useDragAndDrop.ts:279-284 | apart from the relabelled id the list is unchanged |
| InvestorLists.InStatus | src/components/KanbanColumn.tsx:32-34 | the status `filter` keeps only records of that status |
| InvestorLists.InStatusNone | src/hooks/useInvestorActions.ts:70-73 | with no record of that status the filter is empty |
| InvestorLists.InStatusSublist | src/components/KanbanColumn.tsx:32-34 | the status filter is an order-preserving sublist holding every record of that status |
| InvestorLists.InStatusCount | src/components/KanbanColumn.tsx:32-34 | the status filter keeps every copy of a record with the status and none of any other |
| InvestorLists.InStatusMembers | src/components/KanbanColumn.tsx:32-34 | a record is in the filter iff it is in the list with that status |
| InvestorLists.FindStatusIndex | src/hooks/useInvestorActions.ts:80 | the first index of a status, or -1 iff none has it |
| DragAndDrop.ReorderedList | src/hooks/useDragAndDrop.ts:244-257 | definition of the reordered list: the dragged record taken out and spliced back next to the target; stated by ReorderIsPermutation, ReorderKeepsOthersInOrder and ReorderPlacesNextToTarget |
| DragAndDrop.ResolveDrop | src/hooks/useDragAndDrop.ts:163-293 | no id means no change. A change needs a known id. A delete-zone drop of a known id relabels it "Drop definitivo". A known id dropped on another column is exactly relabelled to that column, and one dropped on another card of its own column is exactly reordered; those are the only ways a column drop changes the list. A drop on the card itself or on its own column's empty area changes nothing |
| DragAndDrop.ColumnMoveIgnoresDropPoint | src/hooks/useDragAndDrop.ts:277-285 | a move to another column does not depend on the card under the mouse or its marker |
| DragAndDrop.ReorderIsPermutation | src/hooks/useDragAndDrop.ts:244-257 | with unique ids a reorder keeps the length and is a permutation |
| DragAndDrop.ReorderKeepsOthersInOrder | src/hooks/useDragAndDrop.ts:244-257 | apart from the dragged record, a reorder keeps every record in its relative order |
| DragAndDrop.ReorderPlacesNextToTarget | src/hooks/useDragAndDrop.ts:250-257 | the dragged record lands immediately above the target with the above marker, immediately below it otherwise |
| DragAndDrop.RepeatedIdReorderShrinks | src/hooks/useDragAndDrop.ts:244-257 | when two records carry the dragged id, the reordered list is shorter than the original: every copy is removed and one is put back |
| DragAndDrop.UnknownDropsIgnored | src/hooks/useDragAndDrop.ts:164-181 | a delete-zone drop with no id, or with an id not on the board, changes nothing |
| DragAndDrop.DropKeepsLength | src/hooks/useDragAndDrop.ts:20-27 | with unique ids every drop that changes the list keeps its length, and its save, made without a project id, sends nothing |
| DragAndDrop.MidpointHalves | src/hooks/useDragAndDrop.ts:104-117 | on a card of positive height, the marker goes above iff the mouse is nearer the top edge than the bottom edge |
| DragAndDrop.ClearContainer | src/hooks/useDragAndDrop.ts:108-110 | exactly the markers of the cards in that container are removed |
| DragAndDrop.AboveMarked | src/hooks/useDragAndDrop.ts:241 | "above" is read only from a card under the drop that carries a marker |
| DragAndDrop.DroppedId | src/hooks/useDragAndDrop.ts:164 | the id of a drop is the transferred text, else the dragging id, else none |
| DragAndDrop.DragController.HandleDragStart | src/hooks/useDragAndDrop.ts:29-54 | a card sets the dragged card, its id (or null) and its column's status, and returns the id as the drag's transferred text; a card in no column keeps the previous status; outside a card nothing changes and the drag carries no text |
| DragAndDrop.DragController.HandleDragEnd | src/hooks/useDragAndDrop.ts:56-74 | the dragged card, the dragging id and the source status are reset to null |
| DragAndDrop.DragController.HandleDragOver | src/hooks/useDragAndDrop.ts:76-120 | over another card in a container during a drag, the container's markers are cleared and the card gets the midpoint marker; otherwise no marker changes |
| DragAndDrop.DragController.HandleDragLeave | src/hooks/useDragAndDrop.ts:122-145 | leaving a card inside a container removes its marker |
| DragAndDrop.EndedDragNotReused | src/hooks/useDragAndDrop.ts:163-171 | after a drag ends, a drag not started on a card carries no id, so its drop on the delete zone changes nothing |
| DragAndDrop.DragController.HandleDrop | src/hooks/useDragAndDrop.ts:147-294 | the outcome is the drop resolution of the id the drop's own transfer text gives (else the dragging id), the source status and the card's marker; the save sends no request; a reorder clears every marker |
| KanbanStorage.RecordComplete | src/hooks/useKanbanStorage.ts:13-22 | definition of the board's per-record completeness: truthy id, name, status and createdAt; string type, description, email and linkedin |
| KanbanStorage.IsCompleteInvestorsData | src/hooks/useKanbanStorage.ts:10-23 | definition of `isCompleteInvestorsData`: the empty list, or a list of complete records; related to the validator by ValidImpliesComplete and the two disagreement lemmas |
| KanbanStorage.ValidImpliesComplete | src/hooks/useKanbanStorage.ts:10-23 | every list the save validator accepts is non-empty and complete |
| KanbanStorage.EmptyListDisagreement | src/hooks/useKanbanStorage.ts:11 | the empty list is complete but refused by the save validator |
| KanbanStorage.NonStringIdDisagreement | src/hooks/useKanbanStorage.ts:13-22 | every complete record whose id is not a string (a non-zero number, `true`, an array, an object) is refused by the save validator |
| KanbanStorage.DecideAutoSave | src/hooks/useKanbanStorage.ts:46-72 | the change effect skips iff the list is empty, a save is in flight, the load is not done or there is no project id. Next it refuses incomplete data, then ignores a list equal to the last saved one. Anything else is scheduled |
| KanbanStorage.ScheduledListsAreComplete | src/hooks/useKanbanStorage.ts:46-65 | a scheduled list is non-empty and every record is complete |
| KanbanStorage.AutoSaver.OnChange | src/hooks/useKanbanStorage.ts:39-106 | the previous timer is cancelled; a new one holding the list is set iff the decision is to schedule; the error notice is shown iff the data are incomplete; nothing else changes |
| KanbanStorage.AutoSaver.Teardown | src/hooks/useKanbanStorage.ts:100-105 | the cleanup cancels the pending timer and changes nothing else |
| KanbanStorage.AutoSaver.TimerFire | src/hooks/useKanbanStorage.ts:80-81 | the timer sets the saving flag and starts the save of the list it captured |
| KanbanStorage.AutoSaver.ManualSave | src/hooks/useKanbanStorage.ts:109-147 | starts iff there is a project id and the list is non-empty and complete; it starts even while another save is in flight |
| KanbanStorage.AutoSaver.SaveDone | src/hooks/useKanbanStorage.ts:83-96 | succeeds iff the data validate and one of the three requests succeeds; the fingerprint moves to the saved list only on success; the saving flag is cleared whatever the outcome |
| KanbanStorage.OverlappingSaves | src/hooks/useKanbanStorage.ts:129-143 | a manual save during an auto-save runs beside it, and the first to finish clears the flag while the other is in flight |
| KanbanStorage.SavedListIsNotSavedAgain | src/hooks/useKanbanStorage.ts:67-72 | after a successful save, a change back to the same list schedules nothing |
| InvestorActions.NewInvestor | src/hooks/useInvestorActions.ts:23-32 | definition of the empty card opened by `handleAddInvestor`; NewCardNeedsName and NamedNewCardAccepted state how the save treats it |
| InvestorActions.NewCardNeedsName | src/hooks/useInvestorActions.ts:21-55 | a freshly added card is refused by the save until it is named |
| InvestorActions.NamedNewCardAccepted | src/hooks/useInvestorActions.ts:42-55 | a named new card with an id, a status and a timestamp is accepted |
| InvestorActions.ReplaceById | src/hooks/useInvestorActions.ts:62-64 | replacing by id keeps the length |
| InvestorActions.ApplySave | src/hooks/useInvestorActions.ts:42-93 | refused iff the record is incomplete; an id on the board is replaced in place; any other record is inserted at the top of its status group |
| InvestorActions.ReplaceInPlace | src/hooks/useInvestorActions.ts:58-66 | a replace keeps the length and the id at every position: the record with the id becomes the edited one, the others are untouched, and unique ids stay unique |
| InvestorActions.GroupTop | src/hooks/useInvestorActions.ts:70-88 | the insertion point comes before every record of the new record's status; it is the index of the first of them when there is one, and 0 when there is none |
| InvestorActions.InsertAtGroupTop | src/hooks/useInvestorActions.ts:70-88 | definition of the two-branch insertion of a new record; stated by InsertAtGroupTopIsCut, InsertAtGroupTopPlacement and InsertHeadsItsColumn |
| InvestorActions.InsertAtGroupTopIsCut | src/hooks/useInvestorActions.ts:70-88 | the insertion is the list cut at that point with the new record in the cut |
| InvestorActions.InsertAtGroupTopPlacement | src/hooks/useInvestorActions.ts:68-89 | the list grows by exactly the new record, put just before the first record of its status, or at the front when there is none, with the others in their old order |
| InvestorActions.InsertHeadsItsColumn | src/hooks/useInvestorActions.ts:68-89 | the new record heads its status column above the old cards in order; every other column is unchanged |
| InvestorActions.DeleteById | src/hooks/useInvestorActions.ts:124 | deletion removes every record with the id and keeps all the others in order, every copy of each |
| InvestorActions.DeleteLastCardNotSaved | src/hooks/useInvestorActions.ts:124-130 | deleting the last card leaves [] and the save refuses it |
| InvestorActions.Note | src/hooks/useInvestorActions.ts:103-105 | the change-log note is the prefix followed by the name |
| InvestorActions.DeleteNote | src/hooks/useInvestorActions.ts:121-134 | deleting an unknown id, or a record with a falsy name, notes "Eliminato investitore: Sconosciuto"; a record with a truthy name is noted with that name as a template literal renders it |
| InvestorActions.HandleSaveInvestor | src/hooks/useInvestorActions.ts:38-115 | a refused record sends nothing. Otherwise the new list is saved (with requests iff its gate opens) and the change is noted with one request when there is a project id. The note says "Aggiornato" for a replace and "Nuovo" for an insert |
| InvestorActions.HandleDeleteInvestor | src/hooks/useInvestorActions.ts:117-144 | the list without the id is handed on and saved, and the deletion is noted with the deleted record's name |
| InvestorActions.ActionsState.HandleEditInvestor | src/hooks/useInvestorActions.ts:16-19 | the editor opens on the record |
| InvestorActions.ActionsState.HandleAddInvestor | src/hooks/useInvestorActions.ts:21-36 | the editor opens on an empty card with a fresh id and the column's status; the list is untouched |
| InvestorActions.ActionsState.SetModalOpen | src/hooks/useInvestorActions.ts:14 | the open flag is set and the edited record kept |
| EditModal.TextLeTotal | src/components/EditModal.tsx:58 | the string order of `sort()` is total |
| EditModal.TextLeTrans | src/components/EditModal.tsx:58 | the string order of `sort()` is transitive |
| EditModal.InsertTextMembers | src/components/EditModal.tsx:58 | one insertion step of the sort adds exactly its element |
| EditModal.InsertTextSorted | src/components/EditModal.tsx:58 | one insertion step keeps a sorted list sorted |
| EditModal.SortText | src/components/EditModal.tsx:58 | definition of `sort()` on strings as an insertion sort; stated by SortTextSpec |
| EditModal.SortTextSpec | src/components/EditModal.tsx:58 | `sort()` gives a sorted permutation of its input |
| EditModal.PermutationDistinct | src/components/EditModal.tsx:58 | sorting a list without repeats leaves none |
| EditModal.DistinctTypes | src/components/EditModal.tsx:48-59 | the result is [] for no investors and throws iff some type is a truthy non-string. Otherwise it is sorted and without repeats, and holds exactly the non-blank string types of the records |
| EditModal.AmountText | src/components/EditModal.tsx:69-70 | an amount's input text is empty iff the amount is absent |
| EditModal.AmountOf | src/components/EditModal.tsx:90-91 | empty text gives an absent amount, otherwise `Number(text)` |
| EditModal.EditForm.constructor | src/components/EditModal.tsx:36-45 | the form starts with empty inputs, no status and the type selector mode |
| EditModal.EditForm.Load | src/components/EditModal.tsx:63-76 | opening on a record fills the inputs from it (falsy text as '', amounts as their text) and leaves custom mode; without a record nothing changes |
| EditModal.EditForm.EditText | src/components/EditModal.tsx:36-45 | typing changes exactly the input typed into |
| EditModal.EditForm.SelectStatus | src/components/EditModal.tsx:39 | choosing a status changes only the status |
| EditModal.EditForm.HandleTypeChange | src/components/EditModal.tsx:101-108 | "ALTRO" enters custom mode and keeps the type; any other entry leaves custom mode and selects it |
| EditModal.EditForm.HandleCustomTypeSave | src/components/EditModal.tsx:110-115 | a non-blank custom type becomes the type and ends custom mode; a blank one changes nothing |
| EditModal.EditForm.Updated | src/components/EditModal.tsx:84-94 | the built record keeps id and createdAt. Its type is the custom type in custom mode, otherwise the selected one. With no status chosen it falls back to the record's status. Empty amount text gives an absent amount, otherwise `Number(text)` |
| EditModal.EditForm.HandleSave | src/components/EditModal.tsx:78-99 | without a record nothing is saved; otherwise the built record is handed on |
| EditModal.UneditedSaveKeepsRecord | src/components/EditModal.tsx:63-94 | opening a record with string text fields and saving it unedited gives the same record back |
| EditModal.BlankCustomTypeIgnored | src/components/EditModal.tsx:101-115 | choosing "ALTRO" and confirming a blank custom type keeps the previous type and stays in custom mode |
| Analytics.Counts | src/components/Analytics.tsx:37-40 | one count per status |
| Analytics.Distribution | src/components/Analytics.tsx:65-69 | one bar per status in table order with its count; only the sixth is red |
| Analytics.StatusOverview | src/components/Analytics.tsx:46-62 | definition of the pie's three slices; stated by OverviewSlices and PieTotalIsRecordCount |
| Analytics.OverviewSlices | src/components/Analytics.tsx:46-62 | the pie holds the "A bordo!" count, the "Drop definitivo" count and the sum of the first four, which together sum all six counts |
| Analytics.CountsCoverList | src/components/Analytics.tsx:37-40 | when every status is one of the six, the counts add up to the number of records |
| Analytics.PieTotalIsRecordCount | src/components/Analytics.tsx:46-62 | when every status is one of the six, the pie's slices add up to the number of records |
| Analytics.AmountOrZero | src/components/Analytics.tsx:73-76 | an absent or NaN amount counts as 0 |
| Analytics.SumFrom | src/components/Analytics.tsx:73-76 | definition of the left fold that adds each amount, an absent or NaN one as 0; stated by SumFromSnoc and SumFromMonotone |
| Analytics.OnboardTotal | src/components/Analytics.tsx:72-76 | definition of the on-board totals: the fold over the "A bordo!" records; stated by OnboardTotalSnoc and MinTotalAtMostMax |
| Analytics.SumFromSnoc | src/components/Analytics.tsx:73-76 | the sum of a list grown at the end adds the new record's amount |
| Analytics.OnboardTotalSnoc | src/components/Analytics.tsx:72-76 | a new "A bordo!" record adds its amount to the total; any other adds nothing |
| Analytics.SumFromMonotone | src/components/Analytics.tsx:73-76 | a sum with pointwise smaller amounts is smaller |
| Analytics.MinTotalAtMostMax | src/components/Analytics.tsx:72-76 | when no on-board minimum exceeds its maximum, the minimum total is at most the maximum total |
| Analytics.RecordCounted | src/components/Analytics.tsx:37-40 | a record with a status makes that status's count positive |
| Analytics.CountedRecord | src/components/Analytics.tsx:37-40 | a positive count comes from a record with that status |
| Analytics.SomeCountedIff | src/components/Analytics.tsx:37-40 | some count is positive iff some record has one of the six statuses |
| Analytics.HasValidDistributionData | src/components/Analytics.tsx:88 | definition of the bar-chart flag `some(item => item.value > 0)`; stated by BarsShownIff |
| Analytics.HasValidPieData | src/components/Analytics.tsx:89 | definition of the pie flag `some(item => item.value > 0)`; stated by PieShownIff |
| Analytics.BarsShownIff | src/components/Analytics.tsx:88 | the bar-chart flag holds iff some status count is positive |
| Analytics.PieShownIff | src/components/Analytics.tsx:89 | the pie-chart flag holds iff some status count is positive |
| Analytics.ChartsShownIff | src/components/Analytics.tsx:88-89 | the bar chart is shown iff some record has one of the six statuses, and the pie exactly when the bars are |
| Analytics.AnalyticsView | src/components/Analytics.tsx:96-104 | the placeholder is shown iff there are no records; otherwise the charts, totals and flags are those of the list |
| Analytics.KnownRecordsShowCharts | src/components/Analytics.tsx:88-104 | a non-empty list with known statuses shows both charts |
| KanbanBoard.FieldMatch | src/components/KanbanBoard.tsx:79-81 | a falsy field does not match; a truthy non-string field throws; a non-empty string matches iff its lowered text holds the query |
| KanbanBoard.Matches | src/components/KanbanBoard.tsx:74-83 | definition of the search test for one record, left to right with short-circuit `or`, throwing on a non-string name; stated by MatchesStrings |
| KanbanBoard.MatchesStrings | src/components/KanbanBoard.tsx:77-82 | for string fields, a record matches iff the lowered name, type, description or e-mail holds the query |
| KanbanBoard.SearchFilter | src/components/KanbanBoard.tsx:72-73 | a blank query shows the list unchanged |
| KanbanBoard.FilterMatching | src/components/KanbanBoard.tsx:74-83 | definition of the search `filter`, which throws when the test throws; stated by FilterMatchingSpec and FilterMatchingCount |
| KanbanBoard.FilterMatchingSpec | src/components/KanbanBoard.tsx:74-83 | the filter throws iff the test throws on some record; otherwise it is an order-preserving sublist of exactly the matching records |
| KanbanBoard.FilterMatchingCount | src/components/KanbanBoard.tsx:74-83 | when the filter does not throw, it keeps every copy of a matching record and none of any other |
| KanbanBoard.SearchFilterSpec | src/components/KanbanBoard.tsx:72-83 | a non-blank query, lowered and untrimmed, keeps an order-preserving sublist of exactly the records that match it |
| KanbanBoard.KeepStatuses | src/components/KanbanBoard.tsx:86-88 | the status filter never lengthens the list, and keeps exactly the statuses other than "Drop definitivo", or all of them when dropped records are shown |
| KanbanBoard.VisibleStatuses | src/components/KanbanBoard.tsx:86-88 | all six statuses in order when the dropped column is shown, otherwise the first five; so never more visible statuses than colours |
| KanbanBoard.KeepStatusesAll | src/components/KanbanBoard.tsx:86-88 | with the dropped column shown, every status is kept |
| KanbanBoard.KeepStatusesAbsent | src/components/KanbanBoard.tsx:86-88 | statuses other than "Drop definitivo" are always kept |
| KanbanBoard.KeepStatusesAppend | src/components/KanbanBoard.tsx:86-88 | the status filter distributes over concatenation |
| KanbanBoard.StatusIndex | src/components/KanbanBoard.tsx:143 | `findIndex` of a status gives its first index, or -1 iff it is not in the table |
| KanbanBoard.ColumnColour | src/components/KanbanBoard.tsx:153 | a colour is found iff the status is in the table |
| KanbanBoard.ColumnColourByStatus | src/components/KanbanBoard.tsx:141-155 | the i-th visible column gets the colour of its status's place in the full table; hiding the dropped column does not shift it |
| KanbanBoard.BoardColumn | src/components/KanbanBoard.tsx:149 | with a blank query a column shows the records of its status |
| KanbanBoard.BlankSearchShowsAll | src/components/KanbanBoard.tsx:141-155 | with a blank query every record with a visible status is shown in some column |
| KanbanColumn.ColumnInvestors | src/components/KanbanColumn.tsx:32-34 | definition of the column's status filter; stated by ColumnShowsItsStatus and ColumnsDisjoint |
| KanbanColumn.ColumnShowsItsStatus | src/components/KanbanColumn.tsx:72-79 | a column shows exactly the records with its status, in list order, each as many times as the list holds it |
| KanbanColumn.CountBadge | src/components/KanbanColumn.tsx:52 | the badge counts at most all records, and is non-zero iff some record has the column's status |
| KanbanColumn.ColumnsDisjoint | src/components/KanbanColumn.tsx:32-34 | columns of different statuses share no record |
| KanbanColumn.DroppableId | src/components/KanbanColumn.tsx:70 | the droppable id starts with "droppable-", so a drop finds the column |
| KanbanColumn.DroppableIdFirst | src/components/KanbanColumn.tsx:70 | the status's first character, lowered, follows the prefix |
| KanbanColumn.DroppableIdSecond | src/components/KanbanColumn.tsx:70 | so does the second, when neither is white space |
| KanbanColumn.DifferentIds | src/components/KanbanColumn.tsx:70 | statuses that differ in their first two lowered characters give different ids |
| KanbanColumn.NotDeleteZone | src/components/kanban/DeleteZone.tsx:25 | a status that does not start with "de", lowered, does not give the delete zone's id |
| KanbanColumn.DroppableIds | src/components/KanbanColumn.tsx:70 | the six statuses give six different ids, none equal to "droppable-delete-zone" |

## Left out

- Transport: `fetch`, the proxy URLs, response bodies and the metadata request body are not modelled. Each request is reduced to its outcome, given as an input.
- `JSON.parse` is an input function. The `JSON.stringify` fingerprint of the auto-save is list equality.
- `Number()` on text is an input function (`numberOf`). Numbers are integers or NaN; fractions and infinities are not modelled.
- Clocks, `uuidv4()` and `Math.random()` are inputs.
- Toasts, console output and the success or progress messages are not modelled.
- React and the DOM are not modelled:
  - effect scheduling, re-rendering, event-listener wiring;
  - `closest`, `classList`, `dataTransfer`, `getBoundingClientRect`;
  - the delete overlay (`src/hooks/useDragState.ts` is not part of this model) and the `dropZoneRef` class toggling.
- Each handler is a method call on explicit state. The board's loading flag is an input.
- Values.Lower: maps ASCII and Latin-1 capitals only. The sort order compares Dafny characters (code points), which differs from UTF-16 code-unit order only for characters outside the Basic Multilingual Plane.
- Values.JsText: arrays rendered in a template literal (elements joined by commas) are not spelled out.
- A loaded object is a list of properties in key order; a key is looked up at its first occurrence. `JSON.parse` never yields repeated keys (a repeated key keeps its last value), and the model does not constrain the parse function's results to unique keys, so for such a result the model reads the first value.
- `===` on record fields is structural equality. Object identity and `NaN !== NaN` are not modelled.
- The array copies that are spliced in place (reorder, insert at group top) are fresh local arrays, so they are modelled as values.
- The form's initial `undefined` status is modelled as null. Both are falsy, which is all the form uses.
- The form's `onClose` after a save and the parent's modal state it drives are not modelled.
- Locale and currency formatting (`toLocaleString`, `Intl.NumberFormat`, the scaling by one million) is not modelled. Neither are the funnel bar widths.
- XLSX, FileReader, `funnel-graph-js` and recharts are not modelled. Only the row mapping of `parseExcelFile` is.
- The pure UI components are not modelled: Settings, Header, MenuBar, SearchBar, ShowDroppedSwitch, ExportButton, ErrorPage, NotFound, and KanbanCard's colour tables.
- The validator's checks on the two investment bounds (number or undefined) hold by the record type, since every path that builds a record yields a number or undefined there.

## Notes on the code

Behaviour of the code that its names and comments do not make plain:

- `saveToStorage` sets the saving flag with the comment that it prevents
  duplicate saves (src/hooks/useKanbanStorage.ts:129), but it never reads
  the flag before starting (src/hooks/useKanbanStorage.ts:109-147). A manual
  save can therefore run beside an auto-save, and the first one to finish
  clears the flag while the other is still in flight
  (`KanbanStorage.OverlappingSaves`).
- The board's completeness check accepts the empty list, and records whose
  id, name, status or createdAt are truthy non-strings. The save validator
  refuses both (`KanbanStorage.EmptyListDisagreement`,
  `KanbanStorage.NonStringIdDisagreement`). Deleting the last card therefore
  updates the board, but its save is refused (`InvestorActions.DeleteLastCardNotSaved`).
- On the array and `data` load paths an investment of 0 is falsy and is
  dropped, so a saved 0 comes back absent (`Api.ZeroAmountLostOnReload`); on
  the key-scan and single-record paths it is kept.
- A reorder removes every record with the dragged id and puts one back
  (src/hooks/useDragAndDrop.ts:244-257), so on a list where that id is
  repeated the list gets shorter (`DragAndDrop.RepeatedIdReorderShrinks`).
  The length and permutation facts of the reorder hold for unique ids.
- Drops save without a project id, so the save they trigger sends no
  request (`DragAndDrop.DropKeepsLength`).
