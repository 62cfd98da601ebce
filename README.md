# PDF summarizer client state, modelled in Dafny

This project models the client-side state of a PDF summarization demo. A user picks a PDF, submits it to a summarization call, sees the summary, and keeps a history of past summaries in the browser's local storage. Four parts of the front end are modelled:

- **History store** (`useSummaryHistory`, module `History`). It keeps a list of summary items, newest first. It loads once from local storage and writes the whole list back after every change. It never writes before that load has finished. Storage is a `LocalStorage` object holding a map from key to `Stored`. A stored value is either a parsed history or text that does not parse.
- **Workflow controller** (`PdfSummarizer`, module `Workflow`). A class with the component's five state cells: `file`, `summary`, `isLoading`, `error` and `activeTab`. It owns a history store. The summarization call is a parameter of type `GatewayReply`: `Summarized(text)`, `Failed(reason)` or `Threw`. Fetching a blob URL is a parameter of type `FetchOutcome`. New history items get their id, clock reading and blob URL from the caller.
- **History panel** (`SummaryHistory`, module `HistoryPanel`). It holds the map of expanded cards, the one-card and all-cards toggles, the toggle-all label, the unit a file size is shown in, and what the panel renders (`Render`).
- **File picker** (`FileUploader`, module `Uploader`). It handles the drag highlight, the drop and browse rules, and the remove button. What it hands its parent is an `Emission` value.

Module `Types` holds the shared records: `SummaryItem` (with `pdfUrl` an `Option`) and `PdfFile`. Module `Scenarios` states the outcome of whole workflows over a fresh storage: what the user ends up with.

Behaviour the model keeps on purpose, because the code does it:

- Load overwrites unparsable stored text with the empty list. The save effect runs as soon as loading is done, on every path.
- Submit with no file leaves `isLoading` as it was. The early return skips the `finally`.
- Viewing a history item leaves the error banner as it was.
- An item's blob URL counts as present only when it is non-empty. The source tests it for truthiness.
- The toggle-all label looks at every entry of the expansion map. That includes entries for items removed while the panel was open. `LabelCountsRemovedItems` shows, for any such map, the label reading "Expand All" while every remaining card is expanded. `StaleEntryAfterRemoval` reaches that state through the panel's own operations.
- The uploader's remove button resets the browse input's value only if the input is mounted. The input is rendered only while no file is shown, and the button only while one is, so the reset never acts. The model tracks the `file` prop and the input's mounting to show this.
- Toggle-all rebuilds the map over the current items, so it drops those stale entries.
- The expansion map is built once, when the panel first renders, even over an empty history. An item that arrives later has no entry, so its card reads collapsed while the label offers "Collapse All". `ItemArrivesAfterEmptyMount` shows this.
- The load only catches text that fails to parse. Text that parses as JSON but is not a history object is installed as-is. The model has no value for such data (see Left out).

## Model

| member | source | states |
|---|---|---|
| `Types.HasPdfUrl` | frontend/src/components/pdf-summarizer.tsx:60 | An item offers its blob URL only when the URL is present, and an empty URL counts as absent, as the truthiness tests do |
| `Types.PrependKeepsDistinct` | frontend/src/hooks/use-summary-history.ts:48-50 | Putting an item with a fresh id in front of a list with distinct ids keeps the ids distinct |
| `History.WithoutId` | frontend/src/hooks/use-summary-history.ts:56-60 | The filtered list holds exactly the old items whose id differs, is no longer, and carries no item with that id |
| `History.WithoutIdDistributes` | frontend/src/hooks/use-summary-history.ts:57-59 | Filtering distributes over concatenation, so kept items stay in their old relative order |
| `History.WithoutAbsentId` | frontend/src/hooks/use-summary-history.ts:56-60 | Removing an id no item carries leaves the list unchanged |
| `History.WithoutUniqueId` | frontend/src/hooks/use-summary-history.ts:56-60 | When no other item carries the id at position k, removing it gives the list without that one item, one shorter; other ids may repeat |
| `History.WithoutIdKeepsDistinct` | frontend/src/hooks/use-summary-history.ts:56-60 | Removal keeps ids pairwise distinct |
| `History.SummaryHistoryStore.constructor` | frontend/src/hooks/use-summary-history.ts:9-10 | The store starts with an empty history, not loaded |
| `History.SummaryHistoryStore.Save` | frontend/src/hooks/use-summary-history.ts:27-35 | Before loading has finished nothing is written; afterwards the whole history is written under the key and no other key changes |
| `History.SummaryHistoryStore.Load` | frontend/src/hooks/use-summary-history.ts:13-24 | A parsable stored history is adopted; a missing key or unparsable text leaves the history as it was; the store is loaded on every path and storage then holds the history |
| `History.SummaryHistoryStore.Add` | frontend/src/hooks/use-summary-history.ts:38-53 | The returned item has the given id, the file's name and size, the text verbatim, the clock reading and the blob URL; it is prepended to the old list; it is saved once loaded; fresh ids keep ids distinct |
| `History.SummaryHistoryStore.Remove` | frontend/src/hooks/use-summary-history.ts:56-60 | The list becomes the filtered list, is unchanged for an absent id, is saved once loaded, and keeps ids distinct |
| `History.SummaryHistoryStore.Clear` | frontend/src/hooks/use-summary-history.ts:63-65 | The list becomes empty whatever it held, and the empty list is saved once loaded |
| `Workflow.PdfSummarizer.constructor` | frontend/src/components/pdf-summarizer.tsx:14-19 | No file, empty summary, not loading, no error, summarize tab, and an unloaded empty store over the given storage |
| `Workflow.PdfSummarizer.SubmitEnabled` | frontend/src/components/pdf-summarizer.tsx:95 | The summarize button is enabled only with a file selected, and never while a call is in flight |
| `Workflow.PdfSummarizer.Mount` | frontend/src/hooks/use-summary-history.ts:13-35 | The controller's store runs its load effect: a parsable stored history is adopted, otherwise the list is kept; it ends loaded, and storage changes only under the history key, which then holds the history |
| `Workflow.PdfSummarizer.HandleFileChange` | frontend/src/components/pdf-summarizer.tsx:21-25 | The file becomes the given one (or none), the summary becomes empty and the error is cleared |
| `Workflow.PdfSummarizer.HandleSummarize` | frontend/src/components/pdf-summarizer.tsx:27-55 | The gateway is called exactly when a file is selected, and always when the button is enabled (line 95). No file: the "upload first" banner, nothing else changes. Summary: it is shown, the error is cleared and exactly one item built from the file is prepended to the history; once loaded only the history key is rewritten, before the load nothing is written. Error reply: its reason becomes the banner, and summary and history are unchanged. Fault: the fixed fault banner. Loading is off after any call |
| `Workflow.PdfSummarizer.HandleViewDetails` | frontend/src/components/pdf-summarizer.tsx:58-74 | The item's summary is shown on the summarize tab. When the item has a blob URL and the fetch succeeds, the file becomes a PDF with the item's name and the blob's size; otherwise it is unchanged. The error is untouched |
| `Workflow.PdfSummarizer.SwitchTab` | frontend/src/components/pdf-summarizer.tsx:78 | Only the active tab changes |
| `Workflow.PdfSummarizer.RemoveFromHistory` | frontend/src/components/pdf-summarizer.tsx:108 | The store drops the id; once loaded only the history key is rewritten, before the load nothing is written; file, summary and error are untouched |
| `Workflow.PdfSummarizer.ClearHistory` | frontend/src/components/pdf-summarizer.tsx:109 | The store is emptied; once loaded only the history key is rewritten, with the empty list, before the load nothing is written; file, summary and error are untouched |
| `HistoryPanel.AllSetTo` | frontend/src/components/summary-history.tsx:31 | The map built over the items has exactly their ids as keys, each mapped to the given value |
| `HistoryPanel.AllExpanded` | frontend/src/components/summary-history.tsx:66 | "Every value is true" holds exactly when every entry of the map, stale ones included, reads as expanded, and holds for the empty map |
| `HistoryPanel.ToggleAllLabel` | frontend/src/components/summary-history.tsx:72 | The label is "Collapse All" exactly when every map value is true, and "Expand All" otherwise |
| `HistoryPanel.Toggled` | frontend/src/components/summary-history.tsx:35-40 | Only the toggled id's entry changes; a missing entry counts as collapsed and becomes expanded |
| `HistoryPanel.ToggledAll` | frontend/src/components/summary-history.tsx:64-70 | The new map's keys are exactly the current ids, each set to the negation of "every value is true" |
| `HistoryPanel.ToggleTwice` | frontend/src/components/summary-history.tsx:35-40 | Toggling a card twice restores its entry, or leaves it collapsed where there was none |
| `HistoryPanel.LabelFlipsOnToggleAll` | frontend/src/components/summary-history.tsx:64-72 | With at least one item, toggle-all turns the label over |
| `HistoryPanel.ToggleAllTwice` | frontend/src/components/summary-history.tsx:64-70 | Toggle-all twice sets every item to whether all entries were true before |
| `HistoryPanel.LabelCountsRemovedItems` | frontend/src/components/summary-history.tsx:66-72 | For every map with a collapsed entry whose id is not a current item, and every current card expanded, the label reads "Expand All" while every rendered card is expanded |
| `HistoryPanel.UnitFor` | frontend/src/components/summary-history.tsx:42-46 | The unit is bytes below 1024, KB from 1024 below 1048576, and MB from 1048576 on |
| `HistoryPanel.UnitScalesIntoRange` | frontend/src/components/summary-history.tsx:42-46 | Bytes below 1024, KB for 1 to 1023 whole KB, MB for at least one whole MB |
| `HistoryPanel.UnitMonotonic` | frontend/src/components/summary-history.tsx:42-46 | A larger size never gets a smaller unit |
| `HistoryPanel.Render` | frontend/src/components/summary-history.tsx:48-184 | An empty list renders only the "no history yet" notice. Otherwise the panel shows the toggle-all label and one card per item, in order. Each card shows the item's name, size unit and expanded state; it offers the PDF links exactly when it is expanded and the item has a blob URL |
| `HistoryPanel.SummaryHistoryPanel.constructor` | frontend/src/components/summary-history.tsx:29-32 | Every item's id maps to expanded and nothing else is in the map, so the label offers "Collapse All" |
| `HistoryPanel.SummaryHistoryPanel.ToggleSummary` | frontend/src/components/summary-history.tsx:35-40 | The map becomes the one-card toggle of the old map |
| `HistoryPanel.SummaryHistoryPanel.ToggleAll` | frontend/src/components/summary-history.tsx:64-70 | The map becomes the toggle-all of the old map over the current items, and the label turns over when there are items |
| `HistoryPanel.SummaryHistoryPanel.ReceiveItems` | frontend/src/components/summary-history.tsx:28-32 | New items from the parent leave the expansion map as it was |
| `Uploader.DropEmission` | frontend/src/components/file-uploader.tsx:32-39 | A drop forwards only the first dropped file, and only a PDF; the alert comes only for a first file that is not a PDF |
| `Uploader.BrowseEmission` | frontend/src/components/file-uploader.tsx:43-45 | Browsing forwards a file exactly when one was chosen, and it is the first; it never alerts |
| `Uploader.DropForwardsOnlyFirstPdf` | frontend/src/components/file-uploader.tsx:28-40 | A drop forwards a file exactly when the first dropped file is a PDF, and it is that file. A drop never forwards "no file". An empty drop emits nothing |
| `Uploader.DropIsStricterThanBrowse` | frontend/src/components/file-uploader.tsx:28-46 | Whatever a drop forwards, browsing the same list forwards too. Browsing forwards the first file with no type check. A non-PDF drop raises the alert |
| `Uploader.FileUploader.constructor` | frontend/src/components/file-uploader.tsx:14-16 | Not dragging; the input is mounted and empty exactly when no file is shown |
| `Uploader.FileUploader.ReceiveFile` | frontend/src/components/file-uploader.tsx:57-86 | A shown file unmounts the input; going back to no file mounts an empty one |
| `Uploader.FileUploader.HandleDragOver` | frontend/src/components/file-uploader.tsx:18-21 | Dragging becomes true |
| `Uploader.FileUploader.HandleDragLeave` | frontend/src/components/file-uploader.tsx:23-26 | Dragging becomes false |
| `Uploader.FileUploader.HandleDrop` | frontend/src/components/file-uploader.tsx:28-40 | Dragging becomes false and the emission follows the drop rule |
| `Uploader.FileUploader.HandleFileInput` | frontend/src/components/file-uploader.tsx:42-46 | The emission follows the browse rule; the mounted input holds the chosen file's name |
| `Uploader.FileUploader.HandleRemoveFile` | frontend/src/components/file-uploader.tsx:48-53 | Emits "no file" and empties the input's value when the input is mounted; while a file is shown (the only time the button exists) the input stays unmounted, so the reset does nothing |
| `Scenarios.SummarizeReport` | frontend/src/components/pdf-summarizer.tsx:27-55 | "report.pdf" of 2,000,000 bytes summarized as "X" gives one history item with that name, size and text |
| `Scenarios.ReportFails` | frontend/src/components/pdf-summarizer.tsx:42-43 | An error reply leaves the summary empty, shows the reason and adds nothing |
| `Scenarios.NewestFirst` | frontend/src/hooks/use-summary-history.ts:48-50 | Summarizing A then B gives a history of exactly two items, B then A |
| `Scenarios.ClearThenReload` | frontend/src/hooks/use-summary-history.ts:13-35 | Three stored items, cleared, then loaded again from the same storage, give an empty history |
| `Scenarios.CorruptStorage` | frontend/src/hooks/use-summary-history.ts:13-35 | Unparsable stored text loads as an empty history and is overwritten with the empty list |
| `Scenarios.ViewExpiredItem` | frontend/src/components/pdf-summarizer.tsx:58-74 | Viewing an item whose blob can no longer be fetched shows its summary on the summarize tab and keeps the selected file |
| `Scenarios.DropThenRemove` | frontend/src/components/file-uploader.tsx:28-53 | A drop whose first file is not a PDF raises the alert and leaves no file selected. While the browsed file is shown the input is unmounted. Removing the file leaves no file and no summary shown, and the remounted input is empty |
| `Scenarios.StaleEntryAfterRemoval` | frontend/src/components/summary-history.tsx:29-72 | Open the panel over a and b, collapse a, then remove a: b is still expanded, yet the label reads "Expand All" |
| `Scenarios.ItemArrivesAfterEmptyMount` | frontend/src/components/summary-history.tsx:29-72 | A panel first rendered over an empty history, then given item a: a's card is collapsed, yet the label reads "Collapse All" |

## Left out

- JSON text and its parsing. Storage holds values of type `Stored` rather than text. Stored text that parses but is not a history object (the source installs it and the render then fails) has no counterpart. The empty string is folded into `Unparsable`: both leave the history unchanged.
- Storage write failures such as an exceeded quota. The source only logs them. In the model every write succeeds.
- `generateId`, `Date.now` and `URL.createObjectURL`. Their results are parameters of `Add` and `HandleSummarize`. Id freshness is a hypothesis of the distinct-ids results.
- Releasing blob URLs. The source never revokes them, so there is nothing to model.
- The summarization action's mock text, its delay and its randomness. The reply is the `GatewayReply` parameter.
- Uploader.FileUploader.HandleRemoveFile: the reset of the input's value (lines 50-51) never acts, because the remove button is rendered only while the input is not. The model states this rather than a reset that happens.
- Workflow.PdfSummarizer.HandleSummarize: an error reply must carry a non-empty reason (type `Reason`). The source tests `result.error` for truthiness, so an empty reason would take the success path with an undefined summary. The action never returns an empty reason.
- The asynchronous interleaving of submit and view-details. Each handler runs as one atomic step, so a stale reply arriving after a new selection is not modelled. Fetching a blob is the `FetchOutcome` parameter.
- The decimal text of `formatFileSize` (`toFixed`, floating division; rounding makes sizes just under 1 MB read "1024.0 KB"), `formatDistanceToNow`, and the uploader's megabyte display. Only the unit choice is modelled.
- The clear-all confirmation dialog (`showDeleteDialog`), the browser alert's display, `window.open`, download links, animation, the clipboard in the summary display, and page markup.
- The backend service, which wraps PDF and OCR libraries behind HTTP.
