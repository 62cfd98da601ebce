/**
 * The file picker (the `FileUploader` component): a drop zone with a
 * dragging highlight, a hidden browse input, and a remove button. Its only
 * output is what it hands to the `onFileChange` callback, or an alert.
 */
module Uploader {
  import opened Types

  const NotPdfAlert: string := "Please upload a PDF file"

  /** The prefix browsers put before a chosen file's name in a file input's value. */
  const FakePath: string := "C:\\fakepath\\"

  /** What one handler call hands outward: nothing, a file change for the parent, or a browser alert. */
  datatype Emission = Nothing | FileChange(file: Option<PdfFile>) | Alert(message: string)

  /** The drop rule: only the first dropped file is looked at, and it is forwarded only if it is a PDF. */
  function DropEmission(files: seq<PdfFile>): (e: Emission)
    ensures e.FileChange? ==> files != [] && e.file == Some(files[0]) && files[0].mimeType == PdfMime
    ensures e.Alert? ==> files != [] && files[0].mimeType != PdfMime
  {
    if |files| > 0 then
      if files[0].mimeType == PdfMime then FileChange(Some(files[0])) else Alert(NotPdfAlert)
    else Nothing
  }

  /** The browse rule: the first chosen file is forwarded with no type check. */
  function BrowseEmission(files: seq<PdfFile>): (e: Emission)
    ensures e.FileChange? <==> files != []
    ensures e.FileChange? ==> e.file == Some(files[0])
    ensures !e.Alert?
  {
    if |files| > 0 then FileChange(Some(files[0])) else Nothing
  }

  /** A drop forwards a file exactly when the first dropped file is a PDF, and then it is that file. */
  lemma DropForwardsOnlyFirstPdf(files: seq<PdfFile>, f: PdfFile)
    ensures DropEmission(files) == FileChange(Some(f)) <==> files != [] && files[0] == f && f.mimeType == PdfMime
    ensures DropEmission(files) != FileChange(None)
    ensures files == [] <==> DropEmission(files) == Nothing
  {
  }

  /** Browsing forwards the first chosen file whatever its type; a drop forwards only PDFs, so it forwards a subset. */
  lemma DropIsStricterThanBrowse(files: seq<PdfFile>)
    ensures DropEmission(files).FileChange? ==> DropEmission(files) == BrowseEmission(files)
    ensures files != [] ==> BrowseEmission(files) == FileChange(Some(files[0]))
    ensures files != [] && files[0].mimeType != PdfMime ==> DropEmission(files) == Alert(NotPdfAlert)
  {
  }

  /**
   * The component's state: the `file` prop its parent passes down, the
   * dragging highlight, and the hidden input element behind `fileInputRef`.
   * The input is rendered only while no file is shown, so `inputValue` is
   * None (the ref is null) exactly when the prop holds a file.
   */
  class FileUploader {
    var file: Option<PdfFile>
    var isDragging: bool
    /** The input element's `value`, or None while the input is not mounted. */
    var inputValue: Option<string>

    predicate Valid()
      reads this
    {
      inputValue.None? <==> file.Some?
    }

    /** First render with the parent's current file. */
    constructor (file: Option<PdfFile>)
      ensures Valid()
      ensures this.file == file && !isDragging
      ensures file.None? ==> inputValue == Some("")
    {
      this.file := file;
      isDragging := false;
      inputValue := if file.None? then Some("") else None;
    }

    /**
     * The parent re-renders with a new `file` prop: showing a file unmounts
     * the input, and going back to no file mounts a fresh, empty one.
     */
    method ReceiveFile(newFile: Option<PdfFile>)
      requires Valid()
      modifies this
      ensures Valid()
      ensures file == newFile && isDragging == old(isDragging)
      ensures newFile.Some? ==> inputValue == None
      ensures newFile.None? && old(file).None? ==> inputValue == old(inputValue)
      ensures newFile.None? && old(file).Some? ==> inputValue == Some("")
    {
      if newFile.Some? {
        inputValue := None;
      } else if file.Some? {
        inputValue := Some("");
      }
      file := newFile;
    }

    method HandleDragOver()
      modifies this
      ensures isDragging && inputValue == old(inputValue) && file == old(file)
    {
      isDragging := true;
    }

    method HandleDragLeave()
      modifies this
      ensures !isDragging && inputValue == old(inputValue) && file == old(file)
    {
      isDragging := false;
    }

    /** A drop ends the dragging highlight and then applies the drop rule. */
    method HandleDrop(files: seq<PdfFile>) returns (e: Emission)
      modifies this
      ensures !isDragging && inputValue == old(inputValue) && file == old(file)
      ensures e == DropEmission(files)
    {
      isDragging := false;
      e := DropEmission(files);
    }

    /**
     * The browse input's change. The browser has put the chosen file's
     * name in the input's value (under its fake path); the handler applies
     * the browse rule.
     */
    method HandleFileInput(files: seq<PdfFile>) returns (e: Emission)
      requires Valid()
      modifies this
      ensures Valid()
      ensures e == BrowseEmission(files)
      ensures files != [] && old(inputValue).Some? ==> inputValue == Some(FakePath + files[0].name)
      ensures files == [] || old(inputValue).None? ==> inputValue == old(inputValue)
      ensures isDragging == old(isDragging) && file == old(file)
    {
      if files != [] && inputValue.Some? {
        inputValue := Some(FakePath + files[0].name);
      }
      e := BrowseEmission(files);
    }

    /**
     * The remove button: tells the parent there is no file, and empties the
     * input's value if the input is mounted. The button is rendered only
     * while a file is shown, and then the input is not mounted, so the reset
     * has nothing to act on.
     */
    method HandleRemoveFile() returns (e: Emission)
      requires Valid()
      modifies this
      ensures Valid()
      ensures e == FileChange(None)
      ensures old(inputValue).Some? ==> inputValue == Some("")
      ensures old(file).Some? ==> inputValue == None
      ensures isDragging == old(isDragging) && file == old(file)
    {
      e := FileChange(None);
      if inputValue.Some? {
        inputValue := Some("");
      }
    }
  }
}
