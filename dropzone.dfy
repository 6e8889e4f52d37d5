/**
 * The intake filter of the drop zone: both the drop handler and the
 * file-input handler keep the files whose MIME type is exactly
 * "application/pdf", in their original order, and call the
 * files-selected callback only when the zone is enabled and at least one
 * file survives. A handler's effect is modelled as the argument of that
 * callback: `Some(files)` when it is called, `None` when it is not.
 */
module Intake {
  import opened Types

  const PdfMimeType := "application/pdf"

  predicate IsPdf(f: File) {
    f.mimeType == PdfMimeType
  }

  /** The files that pass the filter, in their original order. */
  function PdfFiles(files: seq<File>): (r: seq<File>)
    ensures |r| <= |files|
    ensures forall f :: f in r <==> f in files && IsPdf(f)
  {
    if files == [] then []
    else (if IsPdf(files[0]) then [files[0]] else []) + PdfFiles(files[1..])
  }

  /** Filtering distributes over concatenation: the relative order of the kept files is the input order. */
  lemma {:induction false} PdfFilesAppend(a: seq<File>, b: seq<File>)
    ensures PdfFiles(a + b) == PdfFiles(a) + PdfFiles(b)
  {
    if a == [] {
      assert a + b == b;
    } else {
      assert (a + b)[1..] == a[1..] + b;
      PdfFilesAppend(a[1..], b);
    }
  }

  /** A list that holds only PDFs passes the filter unchanged. */
  lemma {:induction false} PdfFilesOfPdfs(files: seq<File>)
    requires forall f :: f in files ==> IsPdf(f)
    ensures PdfFiles(files) == files
  {
    if files != [] {
      assert files == [files[0]] + files[1..];
      PdfFilesOfPdfs(files[1..]);
    }
  }

  /** The forwarding rule shared by both handlers. */
  function Forward(files: seq<File>): (forwarded: Option<seq<File>>)
    ensures forwarded.Some? <==> exists f :: f in files && IsPdf(f)
    ensures forwarded.Some? ==> forwarded.value == PdfFiles(files) && forwarded.value != []
  {
    var pdfs := PdfFiles(files);
    if |pdfs| > 0 then assert pdfs[0] in pdfs; Some(pdfs) else None
  }

  /** Drop handler: nothing is forwarded while disabled. */
  function HandleDrop(disabled: bool, dropped: seq<File>): (forwarded: Option<seq<File>>)
    ensures disabled ==> forwarded.None?
    ensures forwarded.Some? <==> !disabled && exists f :: f in dropped && IsPdf(f)
    ensures forwarded.Some? ==> forwarded.value == PdfFiles(dropped) && forwarded.value != []
  {
    if disabled then None else Forward(dropped)
  }

  /** File-input handler: a missing file list forwards nothing, as does a disabled zone. */
  function HandleFileInput(disabled: bool, selected: Option<seq<File>>): (forwarded: Option<seq<File>>)
    ensures disabled || selected.None? ==> forwarded.None?
    ensures forwarded.Some? <==> !disabled && selected.Some? && exists f :: f in selected.value && IsPdf(f)
    ensures forwarded.Some? ==> forwarded.value == PdfFiles(selected.value) && forwarded.value != []
  {
    if disabled || selected.None? then None else Forward(selected.value)
  }

  /** A PDF and a text file dropped together: only the PDF is forwarded. */
  lemma MixedDropForwardsOnlyPdf(pdf: File, txt: File)
    requires IsPdf(pdf) && txt.mimeType == "text/plain"
    ensures HandleDrop(false, [pdf, txt]) == Some([pdf])
  {
    assert [pdf, txt][1..] == [txt];
    assert [txt][1..] == [];
    assert PdfFiles([txt]) == [];
    assert PdfFiles([pdf, txt]) == [pdf];
  }
}
