# Inventory management front end: client-side bookkeeping

This project models the logic that the Angular components of the inventory
management front end run between HTTP calls. It covers three parts.

- **The pagination controller of the list screens.** These are the transport
  list, employee list, purchases, profits, categories, products, sales,
  customers and powder-coating processes. Each screen is a class with its own
  `currentPage`, `pageSize`, `totalPages`, `totalElements`, `startIndex` and
  `endIndex`, its own request parameters and its own rules for going back to
  the first page.
  - The page-number strip (`getPageNumbers`) is a `for`/`push` loop. It is
    written once (`Paging.BuildPageNumbers`), proved equal to the window
    function `Paging.PageWindow`, and the window's properties are proved
    once.
- **The transport editors.** There are two: the newer `Transports/transport`
  editor, with a pending-delete confirmation and its own validator, and the
  older `transport` editor.
  - Both edit an ordered list of bags, each an ordered list of items, and keep
    the invariant "every bag holds at least one item".
  - The newer editor's `validateForm` is a method with nested loops. It is
    proved to return the rendering of a validation specification,
    `TransportForm.FormErrors`. The order, counts and completeness of that
    list are proved separately.
- **The searchable select.** This is a case-insensitive substring filter over
  a list of options, an open/closed dropdown, and the label shown for the
  current selection.

Every HTTP call is split into two steps:
- the step that sends it, recorded by appending its parameters to a `requests`
  (or `mutations`) log;
- the steps that apply its outcome (`OnLoadResponse`, `OnLoadError`, ...),
  which take the response as a parameter.

Toasts are appended to a `notifications` log. JavaScript values are
`Values.Value` (`null`, a number as a real, or a string). Form groups are maps
from control names to values.

## Model

| member | source | states |
|---|---|---|
| Values.Spread | src/app/components/employee/employee-list/employee-list.component.ts:62-66 | An object spread has every key of both sides, and the later spread wins where both have a key. |
| Values.ResetAll | src/app/components/Transports/transport-list/transport-list.component.ts:151 | `form.reset()` keeps the controls and sets every one of them to `null`. |
| Values.ResetTo | src/app/components/category/category.component.ts:121 | `form.reset({status: 'A'})` sets that control to the given value and every other control to `null`. |
| Values.Truthy | src/app/components/Transports/transport/transport.component.ts:205 | The `!value` test of `validateForm`: `null`, `0` and `''` fail it, every other value passes. |
| Values.IsPresent | src/app/components/category/category.component.ts:34-35 | `Validators.required`: only `null` and `''` fail it. |
| Values.BelowMin | src/app/components/Transports/transport/transport.component.ts:61 | `Validators.min(m)` flags a number below `m`. It never flags an empty control: a flagged value is always present. |
| Values.TruthyIsPresent | src/app/components/Transports/transport/transport.component.ts:205 | A value that passes a truthiness test also passes `Validators.required`. |
| Values.FalsyZeroIsPresent | src/app/components/Transports/transport/transport.component.ts:215-217 | `0` is falsy, yet present for `Validators.required`, so the two tests differ. `TransportForm.AngularValidIsWeaker` uses this for its product id `0`. |
| Values.Failures | src/app/components/Transports/transport/transport.component.ts:266-268 | One error toast per message, in the messages' order. |
| Values.ErrorText | src/app/components/Transports/transport/transport.component.ts:264 | A non-empty server message is shown, otherwise the fallback. The text shown is one of the two, and it is never blank when the fallback is not blank. |
| Text.Trim | src/app/components/Transports/transport-list/transport-list.component.ts:79 | The trimmed text neither starts nor ends with white space. |
| Text.TrimIdempotent | src/app/components/Transports/transport-list/transport-list.component.ts:79 | Trimming twice gives the same as trimming once. |
| Text.TrimIsInfix | src/app/components/Transports/transport-list/transport-list.component.ts:79 | What `trim` keeps is the infix of the input between a run of leading and a run of trailing white space. |
| Text.Lower | src/app/shared/components/searchable-select/searchable-select.component.ts:70 | `toLowerCase` maps each character to its lower-case form and keeps the length. |
| Text.LowerIdempotent | src/app/shared/components/searchable-select/searchable-select.component.ts:70 | Lower-casing twice gives the same as lower-casing once. |
| Text.TwoDigitsRoundTrip | src/app/components/Transports/transport-list/transport-list.component.ts:62-63 | For a number below 100, `toString().padStart(2, '0')` is two digits that read back as that number. |
| Text.ParseNatToString | src/app/components/Transports/transport-list/transport-list.component.ts:64 | The decimal digits of a year read back as that year. |
| Paging.BuildPageNumbers | src/app/components/Transports/transport-list/transport-list.component.ts:123-148 | The `for`/`push` loops build exactly the page window. |
| Paging.PushRange | src/app/components/Transports/transport-list/transport-list.component.ts:128-130 | A `for (i = lo; i <= hi; i++) push(i)` loop appends `lo..hi`. |
| Paging.PageWindow | src/app/components/Transports/transport-list/transport-list.component.ts:123-148 | `getPageNumbers()`: the window holds `min(totalPages, 5)` numbers, and none when there are no pages. |
| Paging.PageWindowSmall | src/app/components/Transports/transport-list/transport-list.component.ts:127-130 | With at most 5 pages, the window is `1..totalPages`. |
| Paging.PageWindowLarge | src/app/components/Transports/transport-list/transport-list.component.ts:131-145 | With more than 5 pages, the window is exactly 5 consecutive numbers within `1..totalPages`. |
| Paging.PageWindowInRange | src/app/components/Transports/transport-list/transport-list.component.ts:123-148 | Every listed number is an existing page, and the numbers strictly increase. |
| Paging.PageWindowContainsCurrent | src/app/components/Transports/transport-list/transport-list.component.ts:125-145 | For an existing current page, the window shows its 1-based number. |
| Paging.PageWindowCentred | src/app/components/Transports/transport-list/transport-list.component.ts:132-144 | Away from the ends the current page is in the middle; otherwise the strip starts at 1 or ends at the last page. |
| Paging.EndIndexSpellings | src/app/components/purchase/purchase.component.ts:91-92 | `min((currentPage + 1) * pageSize, total)` equals `min(startIndex + pageSize, total)`. |
| Paging.IndexBounds | src/app/components/Transports/transport-list/transport-list.component.ts:118-121 | `endIndex - startIndex <= pageSize` and `endIndex <= totalElements`. |
| Paging.ExistingPageIndexes | src/app/components/Transports/transport-list/transport-list.component.ts:118-121 | On an existing page of a consistent response, `0 <= startIndex < endIndex <= totalElements`. |
| TransportForm.AddBag | src/app/components/Transports/transport/transport.component.ts:66-73 | `addBag` appends exactly one bag holding exactly one blank item, and the earlier bags are unchanged. |
| TransportForm.AddItem | src/app/components/Transports/transport/transport.component.ts:84-91 | `addItem(b)` appends one blank item to bag `b`, and every other bag is unchanged. |
| TransportForm.RemoveAt | src/app/components/Transports/transport/transport.component.ts:303 | `removeAt(i)` drops element `i` and keeps the order of the rest; an index past the end removes nothing. |
| TransportForm.RemoveItem | src/app/components/Transports/transport/transport.component.ts:314 | Removing an item changes only that bag's item list. |
| TransportForm.RemoveItemIfNotLast | src/app/components/Transports/transport/transport.component.ts:313-315 | A bag with a single item is left as it is; otherwise the item is removed. |
| TransportForm.AddBagKeepsItems | src/app/components/Transports/transport/transport.component.ts:66-73 | `addBag` preserves "every bag holds at least one item". |
| TransportForm.AddItemKeepsItems | src/app/components/Transports/transport/transport.component.ts:84-91 | `addItem` preserves the invariant. |
| TransportForm.RemoveBagKeepsItems | src/app/components/Transports/transport/transport.component.ts:301-307 | Removing a whole bag preserves the invariant. |
| TransportForm.GuardedRemoveKeepsItems | src/app/components/Transports/transport/transport.component.ts:309-319 | The "more than one item" guard preserves the invariant. |
| TransportForm.UnguardedRemoveBreaksItems | src/app/components/Transports/transport/transport.component.ts:313-315 | Without the guard, removing a bag's only item would break the invariant. |
| TransportForm.Message | src/app/components/Transports/transport/transport.component.ts:205-233 | The text of each message, with 1-based bag and item numbers. No message is blank. |
| TransportForm.RenderConcat | src/app/components/Transports/transport/transport.component.ts:202-237 | Rendering messages commutes with appending them. |
| TransportForm.FlattenPrefix | src/app/components/Transports/transport/transport.component.ts:213 | Each `forEach` step appends the next block of messages. |
| TransportForm.FlattenEmptyIff | src/app/components/Transports/transport/transport.component.ts:213-237 | The concatenated blocks are empty exactly when every block is empty. |
| TransportForm.FlattenContains | src/app/components/Transports/transport/transport.component.ts:213-237 | A message of any block is in the concatenation. |
| TransportForm.ItemErrorsKeys | src/app/components/Transports/transport/transport.component.ts:226-235 | An item's messages refer to that item, the product one first. |
| TransportForm.ItemBlocksBanded | src/app/components/Transports/transport/transport.component.ts:226 | Item by item, each item's messages lie in that item's band. |
| TransportForm.BagErrorsKeys | src/app/components/Transports/transport/transport.component.ts:215-236 | A bag's messages refer to that bag, the weight one before its items' ones, in item order. |
| TransportForm.BagBlocksBanded | src/app/components/Transports/transport/transport.component.ts:213 | Bag by bag, each bag's messages lie in that bag's band. |
| TransportForm.FormErrors | src/app/components/Transports/transport/transport.component.ts:201-244 | What `validateForm()` reports: the customer's message, then either "no bags" or every bag's messages, bag by bag. Its order, counts and completeness are the lemmas below. |
| TransportForm.FormErrorsInOrder | src/app/components/Transports/transport/transport.component.ts:201-244 | Messages follow form order: customer, then bags in order, each bag's weight before its items, items in order. |
| TransportForm.InFormOrderPairwise | src/app/components/Transports/transport/transport.component.ts:201-244 | Form order between neighbours puts every earlier message before every later one. |
| TransportForm.MissingCustomerFirst | src/app/components/Transports/transport/transport.component.ts:205-207 | A missing customer is the first message, and is reported only when the customer is missing. |
| TransportForm.NoBagsOnly | src/app/components/Transports/transport/transport.component.ts:210-211 | With no bags, the only message after the customer check is "Please add at least one bag". |
| TransportForm.EmptyBagReported | src/app/components/Transports/transport/transport.component.ts:223-224 | A bag without items is reported, so the list is not empty. |
| TransportForm.BagErrorsEmpty | src/app/components/Transports/transport/transport.component.ts:215-236 | A bag produces no message exactly when its weight and every item are acceptable. |
| TransportForm.FormErrorsEmptyIff | src/app/components/Transports/transport/transport.component.ts:201-244 | No message is produced exactly when the form is complete: customer, at least one bag, and every bag and item acceptable. |
| TransportForm.CountConcat | src/app/components/Transports/transport/transport.component.ts:213-237 | Counting the messages at a position distributes over concatenation. |
| TransportForm.FlattenCount | src/app/components/Transports/transport/transport.component.ts:213-237 | In banded blocks, the messages at a position all come from one block. |
| TransportForm.WeightCount | src/app/components/Transports/transport/transport.component.ts:215-219 | At most one weight message per bag. |
| TransportForm.ItemCount | src/app/components/Transports/transport/transport.component.ts:227-234 | At most two messages per item. |
| TransportForm.FormErrorsCounts | src/app/components/Transports/transport/transport.component.ts:201-244 | Over the whole form, at most one weight message per bag and at most two messages per item. |
| TransportForm.AngularValid | src/app/components/transport/transport.component.ts:48-80 | `transportForm.valid` under the declared validators. The bag and item arrays carry none, so a form without bags is valid exactly when a customer is present. |
| TransportForm.CompleteIsAngularValid | src/app/components/transport/transport.component.ts:164-165 | A form that `validateForm` accepts is also valid under the form's own validators. |
| TransportForm.AngularValidIsWeaker | src/app/components/transport/transport.component.ts:164-165 | The converse fails: the form validators accept a form with no bags, or with a product id of `0`. |
| TransportEditor.TransportEditor.constructor | src/app/components/Transports/transport/transport.component.ts:29-60 | The editor starts with no customer, no bags, nothing pending, and the invariant holds. |
| TransportEditor.TransportEditor.AddBag | src/app/components/Transports/transport/transport.component.ts:66-73 | The bags become `AddBag(old bags)`, and the invariant is kept. |
| TransportEditor.TransportEditor.AddItem | src/app/components/Transports/transport/transport.component.ts:84-91 | The bags become `AddItem(old bags, b)`, and the invariant is kept. |
| TransportEditor.TransportEditor.RemoveBag | src/app/components/Transports/transport/transport.component.ts:75-78 | Only the pending bag index and the modal flag change; the bags are unchanged. |
| TransportEditor.TransportEditor.OnDeleteBag | src/app/components/Transports/transport/transport.component.ts:291-294 | Only the pending bag index and the modal flag change; the bags are unchanged. |
| TransportEditor.TransportEditor.RemoveItem | src/app/components/Transports/transport/transport.component.ts:93-96 | Only the pending item and the modal flag change; the bags are unchanged. |
| TransportEditor.TransportEditor.OnDeleteItem | src/app/components/Transports/transport/transport.component.ts:296-299 | Only the pending item and the modal flag change; the bags are unchanged. |
| TransportEditor.TransportEditor.ConfirmDeleteBag | src/app/components/Transports/transport/transport.component.ts:301-307 | A pending bag is removed, the rest keep their order, and the flag and index are cleared; with nothing pending nothing changes. The invariant is kept. |
| TransportEditor.TransportEditor.ConfirmDeleteItem | src/app/components/Transports/transport/transport.component.ts:309-319 | A pending item is removed only when its bag has more than one item, and whatever was pending is cleared. The invariant is kept. |
| TransportEditor.TransportEditor.CancelDelete | src/app/components/Transports/transport/transport.component.ts:321-326 | Both modals are closed and nothing is pending; the bags are unchanged. |
| TransportEditor.TransportEditor.ValidateForm | src/app/components/Transports/transport/transport.component.ts:201-244 | The loop returns the rendered validation messages, and `isValid` holds exactly when there are none, which is exactly when the form is complete. |
| TransportEditor.CheckItem | src/app/components/Transports/transport/transport.component.ts:226-235 | The item callback appends that item's messages: at most two. |
| TransportEditor.CheckBag | src/app/components/Transports/transport/transport.component.ts:213-237 | The bag callback appends that bag's messages. |
| TransportEditor.CheckItems | src/app/components/Transports/transport/transport.component.ts:226-235 | The `forEach` over a bag's items appends each item's messages, in item order. |
| TransportEditor.TransportEditor.OnSubmit | src/app/components/Transports/transport/transport.component.ts:246-271 | A complete form is sent once; otherwise nothing is sent and each validation message becomes one error toast, in order. |
| TransportEditor.TransportEditor.ShowErrors | src/app/components/Transports/transport/transport.component.ts:266-268 | The `forEach` over the messages adds one error toast per message, in order, and nothing else. |
| TransportEditor.TransportEditor.OnCreateResponse | src/app/components/Transports/transport/transport.component.ts:251-257 | On success there is a toast and the form is cleared; the busy flag drops either way. |
| TransportEditor.TransportEditor.OnCreateError | src/app/components/Transports/transport/transport.component.ts:259-262 | The server message, or "Failed to create transport", is shown and the busy flag drops. |
| TransportEditor.TransportEditor.ResetForm | src/app/components/Transports/transport/transport.component.ts:284-289 | The customer becomes `null` and the loop leaves zero bags. |
| LegacyTransport.LegacyTransportEditor.constructor | src/app/components/transport/transport.component.ts:26-53 | The editor starts with no customer and no bags, and the invariant holds. |
| LegacyTransport.LegacyTransportEditor.AddBag | src/app/components/transport/transport.component.ts:59-66 | One bag with exactly one item is appended, and the invariant is kept. |
| LegacyTransport.LegacyTransportEditor.AddItem | src/app/components/transport/transport.component.ts:76-83 | One item is appended to bag `b` only, and the invariant is kept. |
| LegacyTransport.LegacyTransportEditor.RemoveBag | src/app/components/transport/transport.component.ts:68-70 | The bag is removed at once and the others keep their order. |
| LegacyTransport.LegacyTransportEditor.RemoveItem | src/app/components/transport/transport.component.ts:85-92 | The item is removed only when the bag has more than one; otherwise the bag is unchanged and an error toast is shown. The invariant is kept. |
| LegacyTransport.LegacyTransportEditor.OnSubmit | src/app/components/transport/transport.component.ts:164-183 | A request is sent only when the form validators accept the form. |
| LegacyTransport.LegacyTransportEditor.OnCreateResponse | src/app/components/transport/transport.component.ts:167-174 | On success there is a toast and the form is cleared; the busy flag drops either way. |
| LegacyTransport.LegacyTransportEditor.OnCreateError | src/app/components/transport/transport.component.ts:175-178 | A fixed error toast is shown, whatever the server said. |
| LegacyTransport.LegacyTransportEditor.ResetForm | src/app/components/transport/transport.component.ts:195-200 | The customer becomes `null` and the loop leaves zero bags. |
| LegacyTransport.SubmitsFormWithoutBags | src/app/components/transport/transport.component.ts:164-165 | The older editor sends a form with no bags, which the newer editor refuses with "Please add at least one bag". |
| SearchableSelect.Matches | src/app/shared/components/searchable-select/searchable-select.component.ts:70 | An option matches when its lower-cased label contains the lower-cased search text. |
| SearchableSelect.Filter | src/app/shared/components/searchable-select/searchable-select.component.ts:68-72 | `filterOptions()`: the result is no longer than the options, and everything in it is an option that matches. |
| SearchableSelect.FilterReadsKept | src/app/shared/components/searchable-select/searchable-select.component.ts:68-72 | The filter's result is the options read at the kept positions. |
| SearchableSelect.KeptIncreasing | src/app/shared/components/searchable-select/searchable-select.component.ts:68-72 | The kept positions strictly increase. |
| SearchableSelect.KeptExactlyMatching | src/app/shared/components/searchable-select/searchable-select.component.ts:69-71 | A position is kept exactly when its label contains the search text, ignoring case. |
| SearchableSelect.FilterIsOrderedSubsequence | src/app/shared/components/searchable-select/searchable-select.component.ts:68-72 | The filter yields the order-preserving subsequence of exactly the matching options. |
| SearchableSelect.FilterEmptyText | src/app/shared/components/searchable-select/searchable-select.component.ts:58-59 | An empty search keeps every option. |
| SearchableSelect.FindFirst | src/app/shared/components/searchable-select/searchable-select.component.ts:85 | `find` returns the first option holding the value, or nothing when no option holds it. |
| SearchableSelect.SearchableSelect.constructor | src/app/shared/components/searchable-select/searchable-select.component.ts:23-37 | The inputs are bound, nothing is searched or selected, and the dropdown is closed. |
| SearchableSelect.SearchableSelect.NgOnInit | src/app/shared/components/searchable-select/searchable-select.component.ts:39-41 | The list shows every option. |
| SearchableSelect.SearchableSelect.WriteValue | src/app/shared/components/searchable-select/searchable-select.component.ts:43-45 | Only the selected value changes. |
| SearchableSelect.SearchableSelect.ToggleDropdown | src/app/shared/components/searchable-select/searchable-select.component.ts:55-61 | `isOpen` flips. Opening clears the search and shows every option; closing leaves the search and the list as they were. |
| SearchableSelect.SearchableSelect.OnSearch | src/app/shared/components/searchable-select/searchable-select.component.ts:63-66 | The typed text becomes the search and the list is filtered by it. |
| SearchableSelect.SearchableSelect.FilterOptions | src/app/shared/components/searchable-select/searchable-select.component.ts:68-72 | The list becomes the filter of the options by the current search. |
| SearchableSelect.SearchableSelect.SelectOption | src/app/shared/components/searchable-select/searchable-select.component.ts:74-79 | The option's value is selected and that same value is passed to `onChange`. `onTouch` is called once and the dropdown closes. |
| SearchableSelect.SearchableSelect.GetSelectedLabel | src/app/shared/components/searchable-select/searchable-select.component.ts:81-87 | With no (falsy) selection and a default, the default's label is shown. Otherwise it is the label of the first option holding the selection, or the placeholder when there is none. |
| TransportList.FormatDateLayout | src/app/components/Transports/transport-list/transport-list.component.ts:62-67 | A date renders as two-digit day, dash, two-digit month, dash, year, space, time. Each part reads back as the day, month and year it came from. |
| TransportList.FormatDateForApi | src/app/components/Transports/transport-list/transport-list.component.ts:56-68 | `formatDateForApi`: `''` for no date or an unparsable one, otherwise `dd-MM-yyyy` followed by the start-of-day or end-of-day time. Its layout and examples are the lemmas below. |
| TransportList.FormatDateEmpty | src/app/components/Transports/transport-list/transport-list.component.ts:57-60 | No date or an unparsable date gives `''`, and only those do. |
| TransportList.YearExample | src/app/components/Transports/transport-list/transport-list.component.ts:64 | The year 2024 is written as "2024". |
| TransportList.PaddedExample | src/app/components/Transports/transport-list/transport-list.component.ts:62 | Day 1 is written as "01". |
| TransportList.FormatStartDateExample | src/app/components/Transports/transport-list/transport-list.component.ts:56-68 | 1 January 2024 as a start date is "01-01-2024 00:00:00". |
| TransportList.FormatEndDateExample | src/app/components/Transports/transport-list/transport-list.component.ts:56-68 | 31 December 2024 as an end date is "31-12-2024 23:59:59.999". |
| TransportList.SearchTerm | src/app/components/Transports/transport-list/transport-list.component.ts:79 | The search text is trimmed, or `''` when the control is `null`. |
| TransportList.SearchParams | src/app/components/Transports/transport-list/transport-list.component.ts:74-82 | The request carries the page, the size, the formatted dates and the trimmed search, and always sorts by `id` descending. |
| TransportList.TransportList.constructor | src/app/components/Transports/transport-list/transport-list.component.ts:23-54 | The list starts empty on the first page of ten, with empty filters. |
| TransportList.TransportList.NgOnInit | src/app/components/Transports/transport-list/transport-list.component.ts:44-46 | The first page is requested. |
| TransportList.TransportList.LoadTransports | src/app/components/Transports/transport-list/transport-list.component.ts:70-84 | One request with the current parameters is sent and the list is marked loading. |
| TransportList.TransportList.OnSearch | src/app/components/Transports/transport-list/transport-list.component.ts:101-104 | Back to page 0, then a load. |
| TransportList.TransportList.OnPageChange | src/app/components/Transports/transport-list/transport-list.component.ts:106-111 | An existing page is loaded; any other page changes nothing and sends nothing. |
| TransportList.TransportList.OnPageSizeChange | src/app/components/Transports/transport-list/transport-list.component.ts:113-116 | Back to page 0, then a load. |
| TransportList.TransportList.ResetForm | src/app/components/Transports/transport-list/transport-list.component.ts:150-154 | The filters are cleared (sent as `''`) and the list goes back to page 0, then loads. |
| TransportList.TransportList.UpdatePaginationIndexes | src/app/components/Transports/transport-list/transport-list.component.ts:118-121 | `startIndex = currentPage * pageSize` and `endIndex = min(startIndex + pageSize, totalElements)`, so both index bounds hold. |
| TransportList.TransportList.OnLoadResponse | src/app/components/Transports/transport-list/transport-list.component.ts:85-93 | The list, the counts and the indexes are replaced only when the response reports success; loading ends either way. |
| TransportList.TransportList.OnLoadError | src/app/components/Transports/transport-list/transport-list.component.ts:94-97 | "Failed to load transports" is shown and loading ends. |
| TransportList.TransportList.GetPageNumbers | src/app/components/Transports/transport-list/transport-list.component.ts:123-148 | The strip is the page window. |
| EmployeeList.SearchParams | src/app/components/employee/employee-list/employee-list.component.ts:62-66 | The request carries the form's fields, with `page` and `size` overriding them. |
| EmployeeList.EmployeeList.constructor | src/app/components/employee/employee-list/employee-list.component.ts:27-58 | The list starts empty on the first page of ten, with an empty search. |
| EmployeeList.EmployeeList.NgOnInit | src/app/components/employee/employee-list/employee-list.component.ts:48-50 | The first page is requested. |
| EmployeeList.EmployeeList.LoadEmployees | src/app/components/employee/employee-list/employee-list.component.ts:60-68 | One request with the current parameters is sent and the list is marked loading. |
| EmployeeList.EmployeeList.OnSearch | src/app/components/employee/employee-list/employee-list.component.ts:85-89 | Back to page 0 and a page size of 10, then a load. |
| EmployeeList.EmployeeList.ResetForm | src/app/components/employee/employee-list/employee-list.component.ts:91-96 | The search is nulled, back to page 0 and a page size of 10, then a load. |
| EmployeeList.EmployeeList.OnPageSizeChange | src/app/components/employee/employee-list/employee-list.component.ts:98-101 | Back to page 0, keeping the chosen page size, then a load. |
| EmployeeList.EmployeeList.OnPageChange | src/app/components/employee/employee-list/employee-list.component.ts:148-153 | An existing page is loaded; any other page changes nothing and sends nothing. |
| EmployeeList.EmployeeList.UpdatePaginationIndexes | src/app/components/employee/employee-list/employee-list.component.ts:155-158 | `endIndex = min(startIndex + pageSize, totalElements)`, with both index bounds. |
| EmployeeList.EmployeeList.OnLoadResponse | src/app/components/employee/employee-list/employee-list.component.ts:69-77 | Employees and counts are replaced only when the response reports success; loading ends either way. |
| EmployeeList.EmployeeList.OnLoadError | src/app/components/employee/employee-list/employee-list.component.ts:78-81 | "Failed to load employees" is shown and loading ends. |
| EmployeeList.EmployeeList.GetPageNumbers | src/app/components/employee/employee-list/employee-list.component.ts:121-146 | The strip is the page window. |
| PurchaseList.SearchParams | src/app/components/purchase/purchase.component.ts:80-84 | The request carries the page fields followed by the form's fields, which win on a clash. With the screen's own form, the page and the size get through. |
| PurchaseList.InitialSearchForm | src/app/components/purchase/purchase.component.ts:69-76 | The search form has no control named like a page field. |
| PurchaseList.PurchaseList.constructor | src/app/components/purchase/purchase.component.ts:35-76 | The list starts empty on the first page of ten, with empty filters. |
| PurchaseList.PurchaseList.NgOnInit | src/app/components/purchase/purchase.component.ts:64-67 | The first page is requested. |
| PurchaseList.PurchaseList.LoadPurchases | src/app/components/purchase/purchase.component.ts:78-86 | One request is sent, carrying the current page and size while the form keeps its controls. |
| PurchaseList.PurchaseList.OnSearch | src/app/components/purchase/purchase.component.ts:102-105 | Back to page 0, then a load. |
| PurchaseList.PurchaseList.OnPageChange | src/app/components/purchase/purchase.component.ts:107-110 | Any page is taken as it is, without a range check, then a load. |
| PurchaseList.PurchaseList.OnPageSizeChange | src/app/components/purchase/purchase.component.ts:112-115 | Back to page 0, then a load. |
| PurchaseList.PurchaseList.ResetForm | src/app/components/purchase/purchase.component.ts:199-203 | Every filter is nulled, back to page 0, then a load. |
| PurchaseList.PurchaseList.OnLoadResponse | src/app/components/purchase/purchase.component.ts:87-94 | The response is applied with no success check. The indexes are `currentPage * pageSize` and `min((currentPage + 1) * pageSize, totalElements)`, which are the shared index values. |
| PurchaseList.PurchaseList.OnLoadError | src/app/components/purchase/purchase.component.ts:95-98 | The error's message, or "Failed to load purchases", is shown and loading ends. |
| PurchaseList.PurchaseList.GetPageNumbers | src/app/components/purchase/purchase.component.ts:117-143 | The strip is the page window. |
| ProfitList.SearchParams | src/app/components/profit/profit.component.ts:73-77 | The request carries the page, the size and the search term. |
| ProfitList.AllPages | src/app/components/profit/profit.component.ts:100 | Every page number `1..totalPages`, in order. |
| ProfitList.AllPagesAgainstWindow | src/app/components/profit/profit.component.ts:98-101 | Up to five pages the full strip equals the window of the other screens; beyond five it is longer. |
| ProfitList.ProfitList.constructor | src/app/components/profit/profit.component.ts:38-55 | Nothing is loaded; the first page of five with an empty search. |
| ProfitList.ProfitList.NgOnInit | src/app/components/profit/profit.component.ts:57-59 | The first page is requested. |
| ProfitList.ProfitList.LoadProfits | src/app/components/profit/profit.component.ts:72-79 | One request with the current parameters is sent. |
| ProfitList.ProfitList.OnSearch | src/app/components/profit/profit.component.ts:61-65 | The form's search value becomes the search term and is sent, from page 0. |
| ProfitList.ProfitList.OnPageSizeChange | src/app/components/profit/profit.component.ts:67-70 | Back to page 0, then a load. |
| ProfitList.ProfitList.OnLoadResponse | src/app/components/profit/profit.component.ts:80-84 | The page is taken with no success check, and the indexes are updated. |
| ProfitList.ProfitList.LoadPage | src/app/components/profit/profit.component.ts:91-96 | Only a page of the loaded result is loaded; before the first response nothing changes. |
| ProfitList.ProfitList.GetPageNumbers | src/app/components/profit/profit.component.ts:98-101 | Every page `1..totalPages` with no window, and empty before the first response. |
| ProfitList.ProfitList.UpdatePaginationIndexes | src/app/components/profit/profit.component.ts:103-106 | `endIndex = min(startIndex + pageSize, totalElements)`, with both index bounds. |
| CategoryScreen.SearchParams | src/app/components/category/category.component.ts:50-54 | The request carries the form's fields, with `size` and `page` overriding them. |
| CategoryScreen.ResetCategoryForm | src/app/components/category/category.component.ts:121 | The name becomes `null` and the status becomes `'A'`. |
| CategoryScreen.PatchCategoryForm | src/app/components/category/category.component.ts:98-101 | The form takes the category's name and status. |
| CategoryScreen.EmptyNameNotSubmitted | src/app/components/category/category.component.ts:33-36 | A freshly built or freshly reset form is invalid, so submitting it sends nothing. |
| CategoryScreen.FormValid | src/app/components/category/category.component.ts:33-36 | `categoryForm.valid`: the name and status are both present. A form missing either control is not valid. |
| CategoryScreen.EditedFormValid | src/app/components/category/category.component.ts:95-102 | After an edit, the form is valid exactly when the category has a name and a status. |
| CategoryScreen.CategoryScreen.constructor | src/app/components/category/category.component.ts:14-42 | Create mode with an empty form, on the first page of ten. |
| CategoryScreen.CategoryScreen.NgOnInit | src/app/components/category/category.component.ts:44-46 | The first page is requested. |
| CategoryScreen.CategoryScreen.LoadCategories | src/app/components/category/category.component.ts:48-56 | One request with the current parameters is sent and the list is marked loading. |
| CategoryScreen.CategoryScreen.OnLoadResponse | src/app/components/category/category.component.ts:57-64 | The page is taken with no success check; `endIndex = min((currentPage + 1) * pageSize, totalElements)`, which is the shared value. |
| CategoryScreen.CategoryScreen.OnLoadError | src/app/components/category/category.component.ts:65-68 | "Failed to load categories" is shown and loading ends. |
| CategoryScreen.CategoryScreen.OnSubmit | src/app/components/category/category.component.ts:72-80 | A valid form sends an update with `editingId` in edit mode and a create otherwise; an invalid form sends nothing. |
| CategoryScreen.CategoryScreen.OnSaveResponse | src/app/components/category/category.component.ts:82-86 | The server message is shown, the form goes back to create mode, and the list reloads. |
| CategoryScreen.CategoryScreen.OnSaveError | src/app/components/category/category.component.ts:87-90 | The error's message, or "Operation failed", is shown and loading ends. |
| CategoryScreen.CategoryScreen.EditCategory | src/app/components/category/category.component.ts:95-102 | Edit mode with that category's id, and its fields copied into the form. |
| CategoryScreen.CategoryScreen.ResetForm | src/app/components/category/category.component.ts:118-122 | Create mode, no id, and the form reset with status `'A'`. |
| CategoryScreen.CategoryScreen.OnSearch | src/app/components/category/category.component.ts:124-126 | A load that keeps the current page. |
| CategoryScreen.CategoryScreen.OnPageChange | src/app/components/category/category.component.ts:128-131 | Any page is taken as it is, then a load. |
| CategoryScreen.CategoryScreen.OnPageSizeChange | src/app/components/category/category.component.ts:133-136 | Back to page 0, then a load. |
| CategoryScreen.CategoryScreen.GetPageNumbers | src/app/components/category/category.component.ts:138-164 | The strip is the page window. |
| ProductScreen.SearchParams | src/app/components/product/product.component.ts:75-79 | The request carries the form's fields, with `size` and `page` overriding them. |
| ProductScreen.ResetProductForm | src/app/components/product/product.component.ts:149 | Every control becomes `null` except the status, which becomes `'A'`. |
| ProductScreen.PatchProductForm | src/app/components/product/product.component.ts:123-129 | The form takes the product's five fields. |
| ProductScreen.BlankFormNotSubmitted | src/app/components/product/product.component.ts:47-53 | A freshly built or freshly reset form is invalid; a zero minimum stock passes both of its validators. |
| ProductScreen.FormValid | src/app/components/product/product.component.ts:47-53 | `productForm.valid`: every control is present and the minimum stock is not a negative number. A form missing a control is not valid. |
| ProductScreen.EditedFormValid | src/app/components/product/product.component.ts:120-130 | After an edit, the form is valid exactly when every field is present and the minimum stock is not negative. |
| ProductScreen.ProductScreen.constructor | src/app/components/product/product.component.ts:20-60 | Create mode with an empty form, on the first page of ten. |
| ProductScreen.ProductScreen.NgOnInit | src/app/components/product/product.component.ts:41-44 | The first page of products is requested. |
| ProductScreen.ProductScreen.LoadProducts | src/app/components/product/product.component.ts:73-81 | One request with the current parameters is sent and the list is marked loading. |
| ProductScreen.ProductScreen.OnLoadResponse | src/app/components/product/product.component.ts:82-89 | The page is taken with no success check; `endIndex = min((currentPage + 1) * pageSize, totalElements)`, which is the shared value. |
| ProductScreen.ProductScreen.OnLoadError | src/app/components/product/product.component.ts:90-93 | "Failed to load products" is shown and loading ends. |
| ProductScreen.ProductScreen.OnSubmit | src/app/components/product/product.component.ts:97-105 | A valid form sends an update with `editingId` in edit mode and a create otherwise; an invalid form sends nothing. |
| ProductScreen.ProductScreen.OnSaveResponse | src/app/components/product/product.component.ts:107-111 | The server message is shown, the form goes back to create mode, and the list reloads. |
| ProductScreen.ProductScreen.OnSaveError | src/app/components/product/product.component.ts:112-115 | The error's message, or "Operation failed", is shown and loading ends. |
| ProductScreen.ProductScreen.EditProduct | src/app/components/product/product.component.ts:120-130 | Edit mode with that product's id, and its fields copied into the form. |
| ProductScreen.ProductScreen.ResetForm | src/app/components/product/product.component.ts:146-150 | Create mode, no id, and the form reset with status `'A'`. |
| ProductScreen.ProductScreen.OnSearch | src/app/components/product/product.component.ts:152-155 | Back to page 0, then a load. |
| ProductScreen.ProductScreen.OnPageChange | src/app/components/product/product.component.ts:157-160 | Any page is taken as it is, then a load. |
| ProductScreen.ProductScreen.OnPageSizeChange | src/app/components/product/product.component.ts:162-165 | Back to page 0, then a load. |
| ProductScreen.ProductScreen.GetPageNumbers | src/app/components/product/product.component.ts:167-193 | The strip is the page window. |
| SaleList.SearchParams | src/app/components/sale/sale.component.ts:47-51 | The request carries the page, the size and the search control's value. |
| SaleList.SaleList.constructor | src/app/components/sale/sale.component.ts:18-43 | The list starts empty on the first page of ten, with an empty search. |
| SaleList.SaleList.NgOnInit | src/app/components/sale/sale.component.ts:35-37 | The first page is requested. |
| SaleList.SaleList.LoadSales | src/app/components/sale/sale.component.ts:45-53 | One request with the current parameters is sent and the list is marked loading. |
| SaleList.SaleList.OnLoadResponse | src/app/components/sale/sale.component.ts:54-61 | The page is taken with no success check. The indexes are `currentPage * pageSize` and `min((currentPage + 1) * pageSize, totalElements)`, which are the shared values. |
| SaleList.SaleList.OnLoadError | src/app/components/sale/sale.component.ts:62-65 | "Failed to load sales" is shown and loading ends. |
| SaleList.SaleList.OnSearch | src/app/components/sale/sale.component.ts:69-72 | Back to page 0, then a load. |
| SaleList.SaleList.OnPageChange | src/app/components/sale/sale.component.ts:74-77 | Any page is taken as it is, then a load. |
| SaleList.SaleList.OnPageSizeChange | src/app/components/sale/sale.component.ts:79-82 | Back to page 0, then a load. |
| SaleList.SaleList.GetPageNumbers | src/app/components/sale/sale.component.ts:84-110 | The strip is the page window. |
| CustomerList.SearchParams | src/app/components/customer/customer.component.ts:53-57 | The request carries the page, the size and the search control's value. |
| CustomerList.CustomerList.constructor | src/app/components/customer/customer.component.ts:18-49 | The list starts empty on the first page of ten, with an empty search. |
| CustomerList.CustomerList.NgOnInit | src/app/components/customer/customer.component.ts:41-43 | The first page is requested. |
| CustomerList.CustomerList.LoadCustomers | src/app/components/customer/customer.component.ts:51-59 | One request with the current parameters is sent and the list is marked loading. |
| CustomerList.CustomerList.OnLoadResponse | src/app/components/customer/customer.component.ts:60-68 | Customers and counts are replaced only when the response reports success; loading ends either way. |
| CustomerList.CustomerList.OnLoadError | src/app/components/customer/customer.component.ts:69-72 | "Failed to load customers" is shown and loading ends. |
| CustomerList.CustomerList.OnSearch | src/app/components/customer/customer.component.ts:76-79 | Back to page 0, then a load. |
| CustomerList.CustomerList.OnPageChange | src/app/components/customer/customer.component.ts:81-84 | Any page is taken as it is, then a load. |
| CustomerList.CustomerList.OnPageSizeChange | src/app/components/customer/customer.component.ts:86-89 | Back to page 0, then a load. |
| CustomerList.CustomerList.GetPageNumbers | src/app/components/customer/customer.component.ts:91-117 | The strip is the page window. |
| CustomerList.CustomerList.UpdatePaginationIndexes | src/app/components/customer/customer.component.ts:119-122 | `endIndex = min(startIndex + pageSize, totalElements)`, with both index bounds. |
| PowderCoatingList.SearchParams | src/app/components/powder-coating/powder-coating-process/powder-coating-process.component.ts:86-92 | The request always carries the current page and size and sorts by `id` descending, overriding any form field of those names. Other form fields pass through. |
| PowderCoatingList.PowderCoatingList.constructor | src/app/components/powder-coating/powder-coating-process/powder-coating-process.component.ts:28-66 | The list starts empty on the first page of ten, with empty filters. |
| PowderCoatingList.PowderCoatingList.NgOnInit | src/app/components/powder-coating/powder-coating-process/powder-coating-process.component.ts:54-57 | The first page of processes is requested. |
| PowderCoatingList.PowderCoatingList.LoadProcesses | src/app/components/powder-coating/powder-coating-process/powder-coating-process.component.ts:84-94 | One request with the current parameters is sent and the list is marked loading. |
| PowderCoatingList.PowderCoatingList.OnLoadResponse | src/app/components/powder-coating/powder-coating-process/powder-coating-process.component.ts:95-103 | Processes and counts are replaced only when the response reports success; loading ends either way. |
| PowderCoatingList.PowderCoatingList.OnLoadError | src/app/components/powder-coating/powder-coating-process/powder-coating-process.component.ts:104-107 | "Failed to load processes" is shown and loading ends. |
| PowderCoatingList.PowderCoatingList.UpdatePaginationIndexes | src/app/components/powder-coating/powder-coating-process/powder-coating-process.component.ts:111-114 | `endIndex = min((currentPage + 1) * pageSize, totalElements)`, which is the shared value, with both index bounds. |
| PowderCoatingList.PowderCoatingList.OnSearch | src/app/components/powder-coating/powder-coating-process/powder-coating-process.component.ts:116-119 | Back to page 0, then a load. |
| PowderCoatingList.PowderCoatingList.OnPageChange | src/app/components/powder-coating/powder-coating-process/powder-coating-process.component.ts:121-124 | Any page is taken as it is, then a load. |
| PowderCoatingList.PowderCoatingList.OnPageSizeChange | src/app/components/powder-coating/powder-coating-process/powder-coating-process.component.ts:126-129 | Back to page 0, then a load. |
| PowderCoatingList.PowderCoatingList.GetPageNumbers | src/app/components/powder-coating/powder-coating-process/powder-coating-process.component.ts:131-157 | The strip is the page window. |
| PowderCoatingList.PowderCoatingList.ResetForm | src/app/components/powder-coating/powder-coating-process/powder-coating-process.component.ts:194-198 | Every filter is nulled, back to page 0, then a load. |

## Left out

- HTTP services, authentication, routing, and the modal service are left out. Each subscription is modelled as one method that records the call and methods that apply its outcome.
- The service wrappers, the header, and the model interfaces are not part of this model. They only forward calls or declare shapes.
- Loading the dropdown lists is left out. This covers `loadCustomers`, `loadProducts`, `refreshCustomers` and `refreshProducts` of the two transport editors, the powder-coating screen's `loadProducts`, the purchase screen's `loadProducts` and `refreshProducts`, and the product screen's `loadCategories`. The customer list's `loadCustomers` and the product screen's `loadProducts` load the screens' own tables and are modelled.
- Deleting rows is left out. This covers `deleteEmployee`, `deletePurchase`, `deleteCategory`, `deleteProduct` and `deleteProcess`, all behind a browser `confirm()`, plus `openSaleModal` and `openCustomerModal`.
- The profit screen's load error is not modelled. It only writes to the browser console.
- Angular's field-error helpers are left out: `isFieldInvalid`, `getFieldError`, `getCustomErrorMessage`, and `markFormGroupTouched` (touched and dirty state).
- `registerOnChange` and `registerOnTouched` are not modelled as functions. The registered callbacks are a log of values (`changes`) and a call count (`touches`).
- The select's `labelKey` and `valueKey` inputs are fixed: an option is a label and a value. `multiple` and `searchPlaceholder` have no behaviour to state.
- `new Date(...)` parsing, time zones and locale are left out. A date control's value is given as no date, an unparsable date, or a day, month and year.
- Lower-casing and trimming are ASCII only. `toLowerCase` is modelled for `A`-`Z`. `trim` removes the ASCII white-space characters, the no-break space, the byte-order mark and the line and paragraph separators. Unicode case folding and the other Unicode space separators are not modelled.
- JavaScript numbers are reals. NaN, infinities and floating-point rounding are not modelled.
- Text inputs are assumed to hold strings and number inputs to hold numbers.
- BelowMin: `Validators.min` is applied to number values only. A numeric string is not parsed as a number, because the number inputs deliver numbers.
- Page indexes are unbounded integers. No 53-bit limit of JavaScript numbers is modelled.
- TransportForm.AddItem, TransportForm.RemoveItem, TransportForm.RemoveItemIfNotLast, TransportEditor.TransportEditor.AddItem, LegacyTransport.LegacyTransportEditor.AddItem and LegacyTransport.LegacyTransportEditor.RemoveItem require an existing bag index. `getBagItems` on a missing bag throws a `TypeError`, and that throw is not modelled. The templates only pass indexes of rendered bags.
- Template bindings are modelled as direct field writes. This covers `ngModel` on the page size, the search-form controls, and the select's `options` and `searchText` inputs. Change detection and the binding machinery are not modelled.
- Empty or unparsable dates are sent by the transport list as `''`. A stricter reading, that such dates are left out of the request, does not match `loadTransports`, which always sets both keys. The model follows the code.
