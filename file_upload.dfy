/**
 * The resume upload box (client/src/components/file-upload.tsx): which dropped or chosen file
 * is handed on as the selected resume.
 */
module FileUpload {
  import opened Wrappers

  /** What the component reads of a browser `File`: its MIME type and its size in bytes. */
  datatype File = File(name: string, mimeType: string, size: nat)

  const PdfType := "application/pdf"
  const MaxSize: nat := 10 * 1024 * 1024

  /** The acceptance rule: a PDF of at most 10 MiB, the bound included. */
  predicate Accept(f: File) {
    f.mimeType == PdfType && f.size <= MaxSize
  }

  /** `files.find(isPdf)`: the index of the first PDF, if there is one. */
  function FirstPdf(files: seq<File>): (r: Option<nat>)
    ensures r.Some? ==> r.value < |files| && files[r.value].mimeType == PdfType
    ensures r.Some? ==> forall i :: 0 <= i < r.value ==> files[i].mimeType != PdfType
    ensures r.None? ==> forall i :: 0 <= i < |files| ==> files[i].mimeType != PdfType
  {
    if files == [] then None
    else if files[0].mimeType == PdfType then Some(0)
    else match FirstPdf(files[1..])
      case None => None
      case Some(i) => Some(i + 1)
  }

  /**
   * `handleDrop`: the first PDF among the dropped files is selected when it is small enough;
   * a first PDF that is too large selects nothing, whatever follows it.
   */
  function HandleDrop(files: seq<File>): (r: Option<File>)
    ensures r.Some? ==> Accept(r.value)
    ensures r.Some? <==> FirstPdf(files).Some? && files[FirstPdf(files).value].size <= MaxSize
    ensures r.Some? ==> r.value == files[FirstPdf(files).value]
  {
    match FirstPdf(files)
    case None => None
    case Some(i) => if files[i].size <= MaxSize then Some(files[i]) else None
  }

  /** `handleFileChange`: only the first chosen file is looked at, and it is selected when accepted. */
  function HandleFileChange(files: seq<File>): (r: Option<File>)
    ensures r.Some? <==> files != [] && Accept(files[0])
    ensures r.Some? ==> r.value == files[0]
  {
    if files != [] && Accept(files[0]) then Some(files[0]) else None
  }

  /** A list without a PDF, or one whose first PDF is oversized, never selects a file. */
  lemma {:induction false} DropRejects(files: seq<File>, big: File, rest: seq<File>)
    requires forall i :: 0 <= i < |files| ==> files[i].mimeType != PdfType
    requires big.mimeType == PdfType && big.size > MaxSize
    ensures HandleDrop(files) == None
    ensures HandleDrop(files + [big] + rest) == None
    decreases |files|
  {
    if files != [] {
      assert (files + [big] + rest)[1..] == files[1..] + [big] + rest;
      DropRejects(files[1..], big, rest);
    } else {
      assert files + [big] + rest == [big] + rest;
    }
  }

  /** The two paths agree on a single file: one accepted file is selected either way. */
  lemma SingleFileAgrees(f: File)
    ensures HandleDrop([f]) == HandleFileChange([f])
  {
  }
}
