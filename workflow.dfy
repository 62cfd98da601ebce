/**
 * The summarizer workflow (the `PdfSummarizer` component): five state cells
 * (the selected file, the shown summary, the loading flag, the error banner
 * and the active tab) and the handlers that move them, wired to the history
 * store.
 */
module Workflow {
  import opened Types
  import opened History

  /** Banner shown when submit is asked for with no file selected. */
  const NoFileMessage: string := "Please upload a PDF file first"

  /** Banner shown when the summarization call itself fails. */
  const FaultMessage: string := "An error occurred while summarizing the PDF. Please try again."

  datatype Tab = SummarizeTab | HistoryTab

  /** A non-empty error reason: the only kind the source's truthiness test reads as an error. */
  type Reason = s: string | s != [] witness "error"

  /**
   * What the summarization call gives back: a summary, an error reply, or
   * a fault thrown out of the call.
   */
  datatype GatewayReply = Summarized(text: string) | Failed(reason: Reason) | Threw

  /** What fetching a history item's blob URL gives: the blob's byte length, or a failure. */
  datatype FetchOutcome = Fetched(blobSize: nat) | FetchFailed

  class PdfSummarizer {
    var file: Option<PdfFile>
    var summary: string
    var isLoading: bool
    var error: Option<string>
    var activeTab: Tab
    const store: SummaryHistoryStore

    /** The component's first render: nothing selected, no summary, no error, on the summarize tab. */
    constructor (storage: LocalStorage)
      ensures file == None && summary == "" && !isLoading && error == None && activeTab == SummarizeTab
      ensures fresh(store) && store.storage == storage
      ensures store.items == [] && !store.isLoaded
    {
      file := None;
      summary := "";
      isLoading := false;
      error := None;
      activeTab := SummarizeTab;
      store := new SummaryHistoryStore(storage);
    }

    /** The summarize button is enabled only with a file selected and no call in flight. */
    predicate SubmitEnabled()
      reads this
      ensures SubmitEnabled() ==> file.Some?
      ensures isLoading ==> !SubmitEnabled()
    {
      file.Some? && !isLoading
    }

    /** Runs the history store's mount effect. */
    method Mount()
      requires !store.isLoaded
      modifies store, store.storage
      ensures store.isLoaded && store.Synced()
      ensures (StorageKey in old(store.storage.entries) && old(store.storage.entries)[StorageKey].History?) ==>
                store.items == old(store.storage.entries)[StorageKey].items
      ensures (StorageKey !in old(store.storage.entries) || old(store.storage.entries)[StorageKey].Unparsable?) ==>
                store.items == old(store.items)
      ensures store.storage.entries == old(store.storage.entries)[StorageKey := History(store.items)]
    {
      store.Load();
    }

    /**
     * A new selection (or its removal) replaces the file and invalidates any
     * shown result: the summary is emptied and the error banner cleared.
     */
    method HandleFileChange(uploaded: Option<PdfFile>)
      modifies this
      ensures file == uploaded && summary == "" && error == None
      ensures isLoading == old(isLoading) && activeTab == old(activeTab)
    {
      file := uploaded;
      summary := "";
      error := None;
    }

    /**
     * Submit. With no file it only raises the "upload first" banner and
     * reports that the gateway was not called. Otherwise the gateway's
     * reply decides: a summary is shown and added to the history, an error
     * reply or a fault becomes the banner. The loading flag is down when the
     * call has completed. The id, clock reading and blob URL for a new
     * history item are supplied by the caller.
     */
    method HandleSummarize(reply: GatewayReply, id: string, now: int, url: string) returns (called: bool)
      modifies this, store, store.storage
      ensures called <==> old(file).Some?
      ensures old(SubmitEnabled()) ==> called
      ensures file == old(file) && activeTab == old(activeTab)
      ensures store.isLoaded == old(store.isLoaded)
      ensures old(store.Synced()) ==> store.Synced()
      ensures !called ==> error == Some(NoFileMessage) && summary == old(summary)
                          && isLoading == old(isLoading)
                          && store.items == old(store.items)
                          && store.storage.entries == old(store.storage.entries)
      ensures called ==> !isLoading
      ensures called && reply.Summarized? ==>
                summary == reply.text && error == None
                && store.items == [SummaryItem(id, old(file).value.name, old(file).value.size,
                                               reply.text, now, Some(url))] + old(store.items)
      ensures called && reply.Summarized? && store.isLoaded ==>
                store.storage.entries == old(store.storage.entries)[StorageKey := History(store.items)]
      ensures called && reply.Summarized? && !store.isLoaded ==>
                store.storage.entries == old(store.storage.entries)
      ensures called && reply.Failed? ==>
                error == Some(reply.reason) && summary == old(summary)
                && store.items == old(store.items)
                && store.storage.entries == old(store.storage.entries)
      ensures called && reply.Threw? ==>
                error == Some(FaultMessage) && summary == old(summary)
                && store.items == old(store.items)
                && store.storage.entries == old(store.storage.entries)
    {
      if file.None? {
        error := Some(NoFileMessage);
        return false;
      }
      called := true;
      isLoading := true;
      error := None;
      match reply {
        case Summarized(text) =>
          summary := text;
          var _ := store.Add(file.value, text, id, now, url);
        case Failed(reason) =>
          error := Some(reason);
        case Threw =>
          error := Some(FaultMessage);
      }
      isLoading := false;
    }

    /**
     * Shows a history item in the summarize tab. When the item carries a
     * blob URL and fetching it succeeds, the selected file becomes a PDF
     * rebuilt from the blob under the item's name; otherwise the selection
     * stays as it was. The error banner is left alone.
     */
    method HandleViewDetails(item: SummaryItem, fetched: FetchOutcome)
      modifies this
      ensures summary == item.summary && activeTab == SummarizeTab
      ensures HasPdfUrl(item) && fetched.Fetched? ==> file == Some(PdfFile(item.pdfName, fetched.blobSize, PdfMime))
      ensures !HasPdfUrl(item) || fetched.FetchFailed? ==> file == old(file)
      ensures error == old(error) && isLoading == old(isLoading)
    {
      if HasPdfUrl(item) {
        match fetched {
          case Fetched(size) =>
            file := Some(PdfFile(item.pdfName, size, PdfMime));
          case FetchFailed =>
        }
      }
      summary := item.summary;
      activeTab := SummarizeTab;
    }

    /** The tab bar's value change. */
    method SwitchTab(tab: Tab)
      modifies this
      ensures activeTab == tab
      ensures file == old(file) && summary == old(summary) && error == old(error) && isLoading == old(isLoading)
    {
      activeTab := tab;
    }

    /** The history panel's remove button goes straight to the store; the summarize view is untouched. */
    method RemoveFromHistory(id: string)
      modifies store, store.storage
      ensures store.items == WithoutId(old(store.items), id)
      ensures store.isLoaded == old(store.isLoaded) && store.Synced()
      ensures store.isLoaded ==> store.storage.entries == old(store.storage.entries)[StorageKey := History(store.items)]
      ensures !store.isLoaded ==> store.storage.entries == old(store.storage.entries)
      ensures file == old(file) && summary == old(summary) && error == old(error)
    {
      store.Remove(id);
    }

    /** The history panel's confirmed clear goes straight to the store; the summarize view is untouched. */
    method ClearHistory()
      modifies store, store.storage
      ensures store.items == []
      ensures store.isLoaded == old(store.isLoaded) && store.Synced()
      ensures store.isLoaded ==> store.storage.entries == old(store.storage.entries)[StorageKey := History([])]
      ensures !store.isLoaded ==> store.storage.entries == old(store.storage.entries)
      ensures file == old(file) && summary == old(summary) && error == old(error)
    {
      store.Clear();
    }
  }
}
