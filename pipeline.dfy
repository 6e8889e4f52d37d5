/**
 * Properties of the extractor end to end: intake followed by enqueueing,
 * processing followed by export.
 */
module Pipeline {
  import opened Types
  import Intake
  import opened Jobs
  import Report

  /** The result list after the files-selected callback has (or has not) been called with `forwarded`. */
  function Admit(results: seq<ExtractionResult>, forwarded: Option<seq<File>>): seq<ExtractionResult> {
    match forwarded
    case None => results
    case Some(files) => Enqueue(results, files)
  }

  /**
   * Dropping files adds exactly one pending job per dropped PDF, in drop
   * order, and none for any other file; nothing is added while the zone is
   * disabled, and the jobs already listed are kept.
   */
  lemma DropEnqueuesExactlyThePdfs(results: seq<ExtractionResult>, disabled: bool, dropped: seq<File>)
    ensures var after := Admit(results, Intake.HandleDrop(disabled, dropped));
      && after[..|results|] == results
      && |after| == |results| + (if disabled then 0 else |Intake.PdfFiles(dropped)|)
      && forall k :: |results| <= k < |after| ==>
           && after[k].status == Pending
           && after[k].file == Some(Intake.PdfFiles(dropped)[k - |results|])
           && after[k].file.value in dropped && Intake.IsPdf(after[k].file.value)
  {
    var pdfs := Intake.PdfFiles(dropped);
    if !disabled && |pdfs| > 0 {
      assert pdfs[0] in pdfs;
      var after := Enqueue(results, pdfs);
      forall k | |results| <= k < |after|
        ensures after[k].file == Some(pdfs[k - |results|])
      {
        assert after[|results| + (k - |results|)] == after[k];
      }
    }
  }

  /** One PDF and one text file dropped on an empty list: exactly one pending job, for the PDF. */
  lemma PdfAndTextScenario(pdf: File, txt: File)
    requires Intake.IsPdf(pdf) && txt.mimeType == "text/plain"
    ensures Admit([], Intake.HandleDrop(false, [pdf, txt])) == [ExtractionResult(pdf.name, Pending, None, None, Some(pdf))]
  {
    Intake.MixedDropForwardsOnlyPdf(pdf, txt);
    var jobs := Enqueue([], [pdf]);
    assert jobs == [jobs[0]];
  }

  /**
   * When every successful job carries its data, the export has exactly one
   * row per successful job.
   */
  lemma {:induction false} ExportCountsSuccessfulJobs(results: seq<ExtractionResult>)
    requires forall i :: 0 <= i < |results| && results[i].status == Success ==> results[i].data.Some?
    ensures |Report.ValidResults(results)| == CountWithStatus(results, Success)
  {
    if results != [] {
      ExportCountsSuccessfulJobs(results[1..]);
    }
  }

  /**
   * After a processing run over a consistent list, every job has finished.
   * When the jobs that already succeeded carry data and every reply of the
   * run is a record, exporting yields one row per successful job.
   */
  lemma ProcessedListExportsEverySuccess(snapshot: seq<ExtractionResult>, outcomes: seq<Outcome>)
    requires |outcomes| == |snapshot|
    requires forall i :: 0 <= i < |snapshot| ==> Consistent(snapshot[i])
    ensures var after := ProcessAll(snapshot, outcomes);
      CountWithStatus(after, Success) + CountWithStatus(after, Error) == |after|
    ensures (forall i :: 0 <= i < |snapshot| && snapshot[i].status == Success ==> snapshot[i].data.Some?) &&
            (forall i :: 0 <= i < |outcomes| && outcomes[i].Ok? ==> outcomes[i].data.Some?) ==>
      |Report.ValidResults(ProcessAll(snapshot, outcomes))| == CountWithStatus(ProcessAll(snapshot, outcomes), Success)
  {
    var after := ProcessAll(snapshot, outcomes);
    ProcessAllSettlesConsistentList(snapshot, outcomes);
    TerminalCountsAddUp(after);
    if (forall i :: 0 <= i < |snapshot| && snapshot[i].status == Success ==> snapshot[i].data.Some?) &&
       (forall i :: 0 <= i < |outcomes| && outcomes[i].Ok? ==> outcomes[i].data.Some?) {
      forall i | 0 <= i < |after| && after[i].status == Success ensures after[i].data.Some? {
        assert after[i] == Settle(snapshot[i], outcomes[i]);
      }
      ExportCountsSuccessfulJobs(after);
    }
  }

  /**
   * A falsy reply (`Ok(None)`) still marks the job as successful, but the
   * job carries no data and so gives no row: the export produces nothing.
   */
  lemma FalsyReplyScenario(a: File)
    ensures var after := ProcessAll([NewJob(a)], [Ok(None)]);
      && after == [ExtractionResult(a.name, Success, None, None, Some(a))]
      && Report.GenerateExcelReport(after).None?
  {
  }

  /** In a list where every job has finished, the successes and the errors together are all the jobs. */
  lemma {:induction false} TerminalCountsAddUp(results: seq<ExtractionResult>)
    requires forall i :: 0 <= i < |results| ==> Terminal(results[i].status)
    ensures CountWithStatus(results, Success) + CountWithStatus(results, Error) == |results|
  {
    if results != [] {
      TerminalCountsAddUp(results[1..]);
    }
  }

  /** Five jobs are cleared after confirmation; a processing run afterwards changes nothing. */
  method ClearThenProcessScenario(a: File, b: File, c: File, d: File, e: File)
  {
    var app := new App();
    app.HandleFilesSelected([a, b, c, d, e]);
    assert |app.results| == 5;
    app.HandleClear(false);
    assert |app.results| == 5;
    app.HandleClear(true);
    assert app.results == [];
    ghost var trace := app.ProcessFiles([]);
    assert app.results == [] && !app.isProcessing;
    assert !app.HasPending() && !app.HasSuccess();
  }
}
