/**
 * The records shared by the summarizer's client-side state: a summary
 * history item, a selected PDF file, and the facts about item ids that the
 * history store keeps.
 */
module Types {

  datatype Option<+T> = None | Some(value: T)

  /** The type a drop is checked for, and the type of a file rebuilt from a history item's blob. */
  const PdfMime: string := "application/pdf"

  /** A browser `File` as the client sees it: its name, byte length and MIME type. */
  datatype PdfFile = PdfFile(name: string, size: nat, mimeType: string)

  /**
   * One completed summarization. `pdfUrl` is the transient blob URL made
   * when the item was added; it is an opaque token here.
   */
  datatype SummaryItem = SummaryItem(
    id: string,
    pdfName: string,
    pdfSize: nat,
    summary: string,
    timestamp: int,
    pdfUrl: Option<string>)

  /** The item has a blob URL that JavaScript reads as truthy (present and non-empty). */
  predicate HasPdfUrl(item: SummaryItem)
    ensures HasPdfUrl(item) ==> item.pdfUrl.Some?
    ensures item.pdfUrl == Some("") ==> !HasPdfUrl(item)
  {
    item.pdfUrl.Some? && item.pdfUrl.value != ""
  }

  /** The ids that occur in a list of items. */
  function IdSet(items: seq<SummaryItem>): set<string> {
    set item | item in items :: item.id
  }

  /** No two items of the list share an id. */
  predicate DistinctIds(items: seq<SummaryItem>) {
    forall i, j :: 0 <= i < j < |items| ==> items[i].id != items[j].id
  }

  /** Putting an item with a fresh id in front keeps the ids distinct. */
  lemma PrependKeepsDistinct(item: SummaryItem, items: seq<SummaryItem>)
    requires DistinctIds(items)
    requires item.id !in IdSet(items)
    ensures DistinctIds([item] + items)
  {
  }
}
