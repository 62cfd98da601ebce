/**
 * The outcome of whole workflows over a fresh storage, each stated as what
 * the user ends up seeing and what the history holds.
 */
module Scenarios {
  import opened Types
  import opened History
  import opened Workflow
  import opened Uploader
  import opened HistoryPanel

  const Report: PdfFile := PdfFile("report.pdf", 2000000, PdfMime)

  /** Select "report.pdf", submit, the gateway answers with "X": one history item records the file and the text. */
  method SummarizeReport() returns (history: seq<SummaryItem>, shown: string, banner: Option<string>)
    ensures |history| == 1
    ensures history[0].pdfName == "report.pdf" && history[0].pdfSize == 2000000 && history[0].summary == "X"
    ensures shown == "X" && banner == None
  {
    var storage := new LocalStorage(map[]);
    var app := new PdfSummarizer(storage);
    app.Mount();
    app.HandleFileChange(Some(Report));
    var _ := app.HandleSummarize(Summarized("X"), "id-1", 0, "blob:1");
    history, shown, banner := app.store.items, app.summary, app.error;
  }

  /** The gateway answers with an error: nothing is shown, the reason is the banner, the history stays empty. */
  method ReportFails() returns (history: seq<SummaryItem>, shown: string, banner: Option<string>)
    ensures history == [] && shown == "" && banner == Some("processing failure")
  {
    var storage := new LocalStorage(map[]);
    var app := new PdfSummarizer(storage);
    app.Mount();
    app.HandleFileChange(Some(Report));
    var _ := app.HandleSummarize(Failed("processing failure"), "id-1", 0, "blob:1");
    history, shown, banner := app.store.items, app.summary, app.error;
  }

  /** Two summaries in a row: the newer one comes first. */
  method NewestFirst() returns (history: seq<SummaryItem>)
    ensures |history| == 2 && history[0].id == "b" && history[1].id == "a"
    ensures history[0].summary == "second" && history[1].summary == "first"
  {
    var storage := new LocalStorage(map[]);
    var app := new PdfSummarizer(storage);
    app.Mount();
    app.HandleFileChange(Some(Report));
    var _ := app.HandleSummarize(Summarized("first"), "a", 1, "blob:a");
    var _ := app.HandleSummarize(Summarized("second"), "b", 2, "blob:b");
    history := app.store.items;
  }

  /**
   * Three stored items, cleared, then the page is loaded again over the
   * same storage: the reloaded history is empty.
   */
  method ClearThenReload() returns (before: nat, afterClear: nat, afterReload: nat)
    ensures before == 3 && afterClear == 0 && afterReload == 0
  {
    var one := SummaryItem("1", "a.pdf", 1, "s1", 1, None);
    var two := SummaryItem("2", "b.pdf", 2, "s2", 2, None);
    var three := SummaryItem("3", "c.pdf", 3, "s3", 3, None);
    var storage := new LocalStorage(map[StorageKey := History([three, two, one])]);
    var app := new PdfSummarizer(storage);
    app.Mount();
    before := |app.store.items|;
    app.ClearHistory();
    afterClear := |app.store.items|;
    var reloaded := new PdfSummarizer(storage);
    reloaded.Mount();
    afterReload := |reloaded.store.items|;
  }

  /** Garbled stored history: the load falls back to empty and the garbage is overwritten with the empty list. */
  method CorruptStorage() returns (history: seq<SummaryItem>, stored: Stored)
    ensures history == [] && stored == History([])
  {
    var storage := new LocalStorage(map[StorageKey := Unparsable]);
    var app := new PdfSummarizer(storage);
    app.Mount();
    history, stored := app.store.items, storage.entries[StorageKey];
  }

  /**
   * A history item whose blob URL no longer resolves is viewed: its summary
   * is shown on the summarize tab and the selected file is left as it was.
   */
  method ViewExpiredItem() returns (shown: string, selected: Option<PdfFile>, tab: Tab)
    ensures shown == "old text" && selected == Some(Report) && tab == SummarizeTab
  {
    var storage := new LocalStorage(map[]);
    var app := new PdfSummarizer(storage);
    app.HandleFileChange(Some(Report));
    app.SwitchTab(HistoryTab);
    var item := SummaryItem("9", "old.pdf", 5, "old text", 0, Some("blob:gone"));
    app.HandleViewDetails(item, FetchFailed);
    shown, selected, tab := app.summary, app.file, app.activeTab;
  }

  /**
   * A drop whose first file is not a PDF raises the alert and leaves the
   * selection alone; browsing picks the report, which unmounts the picker's
   * input; a history item is then viewed so that a summary is on screen;
   * removing the file clears that summary and the selection, and the input
   * the picker mounts again is empty.
   */
  method DropThenRemove() returns (dropped: Emission, afterDrop: Option<PdfFile>,
                                   selected: Option<PdfFile>, shown: string,
                                   valueWhileShown: Option<string>, valueAfter: Option<string>)
    ensures dropped == Alert(NotPdfAlert) && afterDrop == None
    ensures selected == None && shown == ""
    ensures valueWhileShown == None && valueAfter == Some("")
  {
    var storage := new LocalStorage(map[]);
    var app := new PdfSummarizer(storage);
    var picker := new FileUploader(app.file);
    var e := picker.HandleDrop([PdfFile("notes.txt", 10, "text/plain"), Report]);
    // An alert is not a file change, so the parent's handler is not called.
    dropped, afterDrop := e, app.file;
    e := picker.HandleFileInput([Report]);
    app.HandleFileChange(e.file);
    picker.ReceiveFile(app.file);
    app.HandleViewDetails(SummaryItem("9", "old.pdf", 5, "old text", 0, None), FetchFailed);
    e := picker.HandleRemoveFile();
    valueWhileShown := picker.inputValue;
    app.HandleFileChange(e.file);
    picker.ReceiveFile(app.file);
    selected, shown, valueAfter := app.file, app.summary, picker.inputValue;
  }

  /**
   * The panel opens over items a and b, a's card is collapsed, then a is
   * removed from the history: b's card is still expanded, yet the toggle-all
   * label offers "Expand All" because a's entry is still in the map.
   */
  method StaleEntryAfterRemoval() returns (bExpanded: bool, caption: string)
    ensures bExpanded && caption == ExpandAllLabel
  {
    var a := SummaryItem("a", "a.pdf", 10, "text a", 1, None);
    var b := SummaryItem("b", "b.pdf", 20, "text b", 2, None);
    var panel := new SummaryHistoryPanel([b, a]);
    assert b in [b, a];
    panel.ToggleSummary("a");
    panel.ReceiveItems(WithoutId([b, a], "a"));
    LabelCountsRemovedItems(panel.expandedItems, "a", panel.items);
    bExpanded := ShowsExpanded(panel.expandedItems, "b");
    caption := ToggleAllLabel(panel.expandedItems);
  }

  /**
   * The panel first renders over an empty history, so its map starts empty;
   * an item added later gets no entry. Its card reads collapsed, yet the
   * label offers "Collapse All", since every value of an empty map is true.
   */
  method ItemArrivesAfterEmptyMount() returns (aExpanded: bool, caption: string)
    ensures !aExpanded && caption == CollapseAllLabel
  {
    var a := SummaryItem("a", "a.pdf", 10, "text a", 1, None);
    var panel := new SummaryHistoryPanel([]);
    panel.ReceiveItems([a]);
    aExpanded := ShowsExpanded(panel.expandedItems, "a");
    caption := ToggleAllLabel(panel.expandedItems);
  }
}
