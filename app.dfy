/**
 * The job list of the extractor and its status machine.
 *
 * The pure part (how a batch of files becomes pending jobs, which positions
 * a processing run visits, what one job becomes, which views are published)
 * is written as functions and predicates; the component itself is the class
 * `App`, whose two state fields are the list of results and the
 * `isProcessing` flag.
 *
 * The extraction service is an oracle: `outcomes[i]` is what encoding and
 * extracting the file of job `i` yields, either the parsed reply or a thrown
 * value (`Some(message)` for an Error, `None` for anything else). Entries
 * for jobs that are not processed are never looked at.
 *
 * The parsed reply is stored as it is, unvalidated: `Ok(None)` stands for a
 * falsy reply (`null`, `false`, `0`, `""`), which leaves a successful job
 * without data; any truthy reply is a record whose groups may be absent.
 */
module Jobs {
  import opened Types
  import Intake

  datatype Outcome = Ok(data: Option<ExtractedData>) | Fail(thrown: Option<string>)

  /** The message recorded when the thrown value is not an Error. */
  const GenericFailure := "Falha na extração"

  /** A view of the component's state, as the rendering layer sees it after one state update. */
  datatype View = View(results: seq<ExtractionResult>, isProcessing: bool)

  // ---------------------------------------------------------------- statuses

  /** How far along its lifecycle a status is. */
  function Rank(s: Status): nat {
    match s
    case Pending => 0
    case Processing => 1
    case Success => 2
    case Error => 2
  }

  predicate Terminal(s: Status) {
    s == Success || s == Error
  }

  /** The legal single transitions: pending to processing, processing to success or error. */
  predicate Advances(from: Status, to: Status) {
    (from == Pending && to == Processing) || (from == Processing && Terminal(to))
  }

  /**
   * A job that reached a state the component can rest in: it carries its
   * file, it is not half-way through processing, and a failed job carries
   * its message. (A successful job may lack data: the reply is stored
   * unvalidated.)
   */
  predicate Consistent(r: ExtractionResult) {
    && r.file.Some?
    && r.status != Processing
    && (r.status == Error ==> r.error.Some?)
  }

  // ------------------------------------------------------------------ intake

  function NewJob(f: File): ExtractionResult {
    ExtractionResult(f.name, Pending, None, None, Some(f))
  }

  /** The result list after a batch of selected files has been added. */
  function Enqueue(results: seq<ExtractionResult>, files: seq<File>): (r: seq<ExtractionResult>)
    ensures |r| == |results| + |files|
    ensures r[..|results|] == results
    ensures forall k :: 0 <= k < |files| ==>
      var job := r[|results| + k];
      job.status == Pending && job.fileName == files[k].name && job.file == Some(files[k])
      && job.data.None? && job.error.None?
  {
    results + seq(|files|, k requires 0 <= k < |files| => NewJob(files[k]))
  }

  // ---------------------------------------------------------- one job's run

  /** The job as published when its run starts: processing, everything else kept. */
  function MarkProcessing(r: ExtractionResult): (m: ExtractionResult)
    ensures m.status == Processing
    ensures m.fileName == r.fileName && m.file == r.file && m.data == r.data && m.error == r.error
  {
    r.(status := Processing)
  }

  function FailureMessage(thrown: Option<string>): string {
    match thrown
    case Some(message) => message
    case None => GenericFailure
  }

  /**
   * The job after its extraction call has returned or thrown: a reply is
   * stored as the data, a thrown value becomes the message; the other
   * fields are kept.
   */
  function Complete(r: ExtractionResult, outcome: Outcome): (c: ExtractionResult)
    ensures c.fileName == r.fileName && c.file == r.file
    ensures outcome.Ok? ==> c.status == Success && c.data == outcome.data && c.error == r.error
    ensures outcome.Fail? ==>
      c.status == Error && c.data == r.data
      && c.error == Some(if outcome.thrown.Some? then outcome.thrown.value else GenericFailure)
  {
    match outcome
    case Ok(data) => r.(status := Success, data := data)
    case Fail(thrown) => r.(status := Error, error := Some(FailureMessage(thrown)))
  }

  /**
   * What a processing run makes of one job that was in the snapshot: a
   * pending job with a file goes through processing to success or error;
   * every other job is left as it is.
   */
  function Settle(r: ExtractionResult, outcome: Outcome): (s: ExtractionResult)
    ensures s.fileName == r.fileName && s.file == r.file
    ensures s != r <==> r.status == Pending && r.file.Some?
    ensures s != r ==> Advances(Processing, s.status)
    ensures s != r && outcome.Ok? ==> s.status == Success && s.data == outcome.data && s.error == r.error
    ensures s != r && outcome.Fail? ==>
      s.status == Error && s.data == r.data
      && s.error == Some(if outcome.thrown.Some? then outcome.thrown.value else GenericFailure)
  {
    if r.status == Pending && r.file.Some? then Complete(MarkProcessing(r), outcome) else r
  }

  /** The whole list after a processing run over `snapshot`. */
  function ProcessAll(snapshot: seq<ExtractionResult>, outcomes: seq<Outcome>): (r: seq<ExtractionResult>)
    requires |outcomes| == |snapshot|
    ensures |r| == |snapshot|
  {
    seq(|snapshot|, i requires 0 <= i < |snapshot| => Settle(snapshot[i], outcomes[i]))
  }

  // ------------------------------------------------- the indices to process

  /** Each position's index if the job there is pending, else -1. */
  function PendingMarks(results: seq<ExtractionResult>): seq<int> {
    seq(|results|, i requires 0 <= i < |results| => if results[i].status == Pending then i else -1)
  }

  predicate StrictlyIncreasing(s: seq<int>) {
    forall k, l :: 0 <= k < l < |s| ==> s[k] < s[l]
  }

  /** The marks other than -1 grow along the sequence. */
  predicate MarksAscend(marks: seq<int>) {
    forall k, l :: 0 <= k < l < |marks| && marks[k] != -1 && marks[l] != -1 ==> marks[k] < marks[l]
  }

  /** The marks other than -1, in order. */
  function DropUnmarked(marks: seq<int>): (r: seq<int>)
    ensures forall x :: x in r <==> x in marks && x != -1
    ensures MarksAscend(marks) ==> StrictlyIncreasing(r)
  {
    if marks == [] then []
    else
      var rest := DropUnmarked(marks[1..]);
      if marks[0] == -1 then rest
      else
        assert MarksAscend(marks) ==> forall x :: x in rest ==> marks[0] < x by {
          if MarksAscend(marks) {
            forall x | x in rest ensures marks[0] < x {
              var l :| 0 <= l < |marks[1..]| && marks[1..][l] == x;
              assert marks[l + 1] == x;
            }
          }
        }
        assert forall l :: 0 < l < |[marks[0]] + rest| ==> ([marks[0]] + rest)[l] in rest;
        [marks[0]] + rest
  }

  /** The positions a processing run visits: the pending ones, in ascending order. */
  function PendingIndices(results: seq<ExtractionResult>): (r: seq<int>)
    ensures forall k :: 0 <= k < |r| ==> 0 <= r[k] < |results| && results[r[k]].status == Pending
    ensures forall i :: 0 <= i < |results| && results[i].status == Pending ==> i in r
    ensures StrictlyIncreasing(r)
  {
    var marks := PendingMarks(results);
    assert forall i :: 0 <= i < |results| && results[i].status == Pending ==> marks[i] == i;
    var r := DropUnmarked(marks);
    assert forall k :: 0 <= k < |r| ==> r[k] in marks;
    r
  }

  // --------------------------------------------------------- the published views

  /** `after` differs from `before` at one position at most, by one legal transition of that job. */
  ghost predicate SingleUpdate(before: seq<ExtractionResult>, after: seq<ExtractionResult>) {
    && |after| == |before|
    && (forall i, j :: 0 <= i < j < |before| && before[i] != after[i] ==> before[j] == after[j])
    && (forall i :: 0 <= i < |before| && before[i] != after[i] ==>
          Advances(before[i].status, after[i].status) && after[i].fileName == before[i].fileName)
  }

  /** Every view of the trace follows from the one before it by a single update. */
  ghost predicate Chain(trace: seq<View>) {
    forall k :: 0 < k < |trace| ==> SingleUpdate(trace[k - 1].results, trace[k].results)
  }

  /** Some view after the first shows job `i` as processing. */
  ghost predicate SeenProcessing(trace: seq<View>, i: int) {
    exists k :: 0 < k < |trace| && 0 <= i < |trace[k].results| && trace[k].results[i].status == Processing
  }

  lemma UpdateAtIsSingle(before: seq<ExtractionResult>, i: int, job: ExtractionResult)
    requires 0 <= i < |before|
    requires Advances(before[i].status, job.status) && job.fileName == before[i].fileName
    ensures SingleUpdate(before, before[i := job])
  {
  }

  /** While a run is under way: every view after the first shows the flag set. */
  ghost predicate Busy(trace: seq<View>) {
    forall k :: 0 < k < |trace| ==> trace[k].isProcessing
  }

  /** Every view of the trace has the snapshot's length and agrees with it on the jobs that were not pending. */
  ghost predicate NonPendingUntouched(trace: seq<View>, snapshot: seq<ExtractionResult>) {
    && (forall k :: 0 <= k < |trace| ==> |trace[k].results| == |snapshot|)
    && (forall k, i :: 0 <= k < |trace| && 0 <= i < |snapshot| && snapshot[i].status != Pending ==>
          i < |trace[k].results| && trace[k].results[i] == snapshot[i])
  }

  /** The list part-way through a run: the positions in `visited` are settled, the rest are as in the snapshot. */
  ghost predicate SettledAt(results: seq<ExtractionResult>, snapshot: seq<ExtractionResult>,
                            outcomes: seq<Outcome>, visited: seq<int>)
    requires |outcomes| == |snapshot|
  {
    && |results| == |snapshot|
    && forall i :: 0 <= i < |snapshot| ==>
         results[i] == if i in visited then Settle(snapshot[i], outcomes[i]) else snapshot[i]
  }

  /** Visiting one more pending position keeps the list settled exactly on the visited positions. */
  lemma VisitKeepsSettled(results: seq<ExtractionResult>, snapshot: seq<ExtractionResult>,
                          outcomes: seq<Outcome>, visited: seq<int>, index: int)
    requires |outcomes| == |snapshot| && SettledAt(results, snapshot, outcomes, visited)
    requires 0 <= index < |snapshot| && index !in visited && snapshot[index].status == Pending
    ensures results[index] == snapshot[index]
    ensures SettledAt(results[index := Settle(snapshot[index], outcomes[index])], snapshot, outcomes, visited + [index])
    ensures snapshot[index].file.None? ==> SettledAt(results, snapshot, outcomes, visited + [index])
  {
  }

  /**
   * Jobs are run one at a time, in position order: in this view of a run
   * over `snapshot`, once a job has been touched, every earlier job that
   * was pending with a file has already finished.
   */
  ghost predicate OrderedView(results: seq<ExtractionResult>, snapshot: seq<ExtractionResult>) {
    && |results| == |snapshot|
    && forall i, j ::
         0 <= i < j < |snapshot| && snapshot[i].status == Pending && snapshot[i].file.Some? && results[j] != snapshot[j]
         ==> Terminal(results[i].status)
  }

  /** Every view of the trace is ordered with respect to `snapshot`. */
  ghost predicate InOrder(trace: seq<View>, snapshot: seq<ExtractionResult>) {
    forall k :: 0 <= k < |trace| ==> OrderedView(trace[k].results, snapshot)
  }

  /**
   * Changing position `index` of a list settled on `visited`, when every
   * earlier pending position has been visited and no later one has, gives
   * an ordered view.
   */
  lemma UpdateAtKeepsOrder(results: seq<ExtractionResult>, snapshot: seq<ExtractionResult>,
                           outcomes: seq<Outcome>, visited: seq<int>, index: int, job: ExtractionResult)
    requires |outcomes| == |snapshot| && SettledAt(results, snapshot, outcomes, visited)
    requires 0 <= index < |snapshot|
    requires forall i :: 0 <= i < index && snapshot[i].status == Pending ==> i in visited
    requires forall i :: i in visited ==> i < index
    ensures OrderedView(results[index := job], snapshot)
  {
    var w := results[index := job];
    forall i, j | 0 <= i < j < |snapshot| && snapshot[i].status == Pending && snapshot[i].file.Some? &&
      w[j] != snapshot[j]
      ensures Terminal(w[i].status)
    {
      assert j == index || j in visited;
      assert w[i] == Settle(snapshot[i], outcomes[i]);
    }
  }

  /** Once every pending position has been visited, the list is the result of the whole run. */
  lemma SettledEverywhere(results: seq<ExtractionResult>, snapshot: seq<ExtractionResult>,
                          outcomes: seq<Outcome>, visited: seq<int>)
    requires |outcomes| == |snapshot| && SettledAt(results, snapshot, outcomes, visited)
    requires forall i :: 0 <= i < |snapshot| && snapshot[i].status == Pending ==> i in visited
    ensures results == ProcessAll(snapshot, outcomes)
  {
    var r := ProcessAll(snapshot, outcomes);
    forall i | 0 <= i < |snapshot| ensures results[i] == r[i] {
    }
  }

  /** Appending a view that follows from the last one keeps the properties of a run's trace. */
  lemma ExtendTrace(trace: seq<View>, snapshot: seq<ExtractionResult>, v: View)
    requires |trace| > 0 && Chain(trace) && NonPendingUntouched(trace, snapshot)
    requires SingleUpdate(trace[|trace| - 1].results, v.results)
    requires |v.results| == |snapshot|
    requires forall i :: 0 <= i < |snapshot| && snapshot[i].status != Pending ==> v.results[i] == snapshot[i]
    ensures Chain(trace + [v]) && NonPendingUntouched(trace + [v], snapshot)
    ensures Busy(trace) && v.isProcessing ==> Busy(trace + [v])
    ensures forall i :: SeenProcessing(trace, i) ==> SeenProcessing(trace + [v], i)
    ensures InOrder(trace, snapshot) && OrderedView(v.results, snapshot) ==> InOrder(trace + [v], snapshot)
  {
    var t := trace + [v];
    if InOrder(trace, snapshot) && OrderedView(v.results, snapshot) {
      forall k | 0 <= k < |t| ensures OrderedView(t[k].results, snapshot) {
        if k < |trace| {
          assert t[k] == trace[k];
        }
      }
    }
    forall k | 0 <= k < |t| ensures |t[k].results| == |snapshot| {
      if k < |trace| {
        assert t[k] == trace[k];
      }
    }
    forall k, i | 0 <= k < |t| && 0 <= i < |snapshot| && snapshot[i].status != Pending
      ensures i < |t[k].results| && t[k].results[i] == snapshot[i]
    {
      if k < |trace| {
        assert t[k] == trace[k];
      }
    }
    forall i | SeenProcessing(trace, i) ensures SeenProcessing(trace + [v], i) {
      var k :| 0 < k < |trace| && 0 <= i < |trace[k].results| && trace[k].results[i].status == Processing;
      assert (trace + [v])[k] == trace[k];
    }
  }

  /**
   * Along a chain of views the list keeps its length, no job's status moves
   * backwards, and a job that reached success or error is never changed again.
   */
  lemma {:induction false} ChainNeverMovesBackwards(trace: seq<View>, a: int, b: int, i: int)
    requires Chain(trace)
    requires 0 <= a <= b < |trace| && 0 <= i < |trace[a].results|
    ensures |trace[b].results| == |trace[a].results|
    ensures Rank(trace[a].results[i].status) <= Rank(trace[b].results[i].status)
    ensures Terminal(trace[a].results[i].status) ==> trace[b].results[i] == trace[a].results[i]
  {
    if a < b {
      ChainNeverMovesBackwards(trace, a, b - 1, i);
      assert SingleUpdate(trace[b - 1].results, trace[b].results);
    }
  }

  /**
   * The views a whole run publishes, from the list `before` with flag `flag`
   * to the list `after`: the flag is set in every view but the first and the
   * last, and cleared in the last; each view is a single update of the one
   * before; jobs that were not pending are never touched; every pending
   * job with a file is shown as processing at some point; and the jobs are
   * run one at a time in position order.
   */
  ghost predicate RunTrace(trace: seq<View>, before: seq<ExtractionResult>, flag: bool, after: seq<ExtractionResult>) {
    && |trace| >= 2 && trace[0] == View(before, flag) && trace[|trace| - 1] == View(after, false)
    && (forall k :: 0 < k < |trace| - 1 ==> trace[k].isProcessing)
    && Chain(trace) && NonPendingUntouched(trace, before)
    && (forall i :: 0 <= i < |before| && before[i].status == Pending && before[i].file.Some? ==>
          SeenProcessing(trace, i))
    && InOrder(trace, before)
  }

  /** Clearing the flag after every pending position has been visited completes the trace of a run. */
  lemma CloseRun(trace: seq<View>, snapshot: seq<ExtractionResult>, flag: bool, outcomes: seq<Outcome>,
                 results: seq<ExtractionResult>, indices: seq<int>)
    requires |outcomes| == |snapshot| && SettledAt(results, snapshot, outcomes, indices)
    requires forall i :: 0 <= i < |snapshot| && snapshot[i].status == Pending ==> i in indices
    requires |trace| >= 2 && trace[0] == View(snapshot, flag) && trace[|trace| - 1] == View(results, true)
    requires Busy(trace) && Chain(trace) && NonPendingUntouched(trace, snapshot)
    requires forall i :: 0 <= i < |snapshot| && i in indices && snapshot[i].file.Some? ==> SeenProcessing(trace, i)
    requires InOrder(trace, snapshot)
    ensures results == ProcessAll(snapshot, outcomes)
    ensures RunTrace(trace + [View(results, false)], snapshot, flag, results)
  {
    SettledEverywhere(results, snapshot, outcomes, indices);
    assert OrderedView(trace[|trace| - 1].results, snapshot);
    ExtendTrace(trace, snapshot, View(results, false));
    var t := trace + [View(results, false)];
    forall k | 0 < k < |t| - 1 ensures t[k].isProcessing {
      assert t[k] == trace[k];
    }
  }

  /**
   * At most one job of a run is in flight: no view of the run shows two of
   * the jobs it runs (pending with a file in its snapshot) as processing.
   */
  lemma OneJobInFlight(trace: seq<View>, before: seq<ExtractionResult>, flag: bool, after: seq<ExtractionResult>,
                       k: int, i: int, j: int)
    requires RunTrace(trace, before, flag, after)
    requires 0 <= k < |trace| && 0 <= i < |before| && 0 <= j < |before| && i != j
    requires before[i].status == Pending && before[i].file.Some?
    requires before[j].status == Pending && before[j].file.Some?
    ensures !(trace[k].results[i].status == Processing && trace[k].results[j].status == Processing)
  {
    assert OrderedView(trace[k].results, before);
  }

  // ------------------------------------------------------- list predicates

  /** Whether some job has status `s`. */
  function AnyWithStatus(results: seq<ExtractionResult>, s: Status): (b: bool)
    ensures b <==> exists i :: 0 <= i < |results| && results[i].status == s
  {
    if results == [] then false
    else if results[0].status == s then true
    else
      var b := AnyWithStatus(results[1..], s);
      assert forall i :: 1 <= i < |results| ==> results[i] == results[1..][i - 1];
      b
  }

  /** The statuses of the jobs, in list order. */
  function Statuses(results: seq<ExtractionResult>): seq<Status> {
    seq(|results|, i requires 0 <= i < |results| => results[i].status)
  }

  /** The number of jobs with status `s`: how often `s` occurs among the statuses. */
  function CountWithStatus(results: seq<ExtractionResult>, s: Status): (n: nat)
    ensures n == multiset(Statuses(results))[s]
    ensures n <= |results|
    ensures n == 0 <==> !AnyWithStatus(results, s)
    ensures n == |results| <==> forall i :: 0 <= i < |results| ==> results[i].status == s
  {
    if results == [] then 0
    else
      var n := CountWithStatus(results[1..], s);
      assert forall i :: 1 <= i < |results| ==> results[i] == results[1..][i - 1];
      assert Statuses(results) == [results[0].status] + Statuses(results[1..]);
      (if results[0].status == s then 1 else 0) + n
  }

  // ------------------------------------------------- properties of a run

  /**
   * A run only touches jobs that were pending in its snapshot, keeps every
   * position's file name, moves every pending job that has a file to success
   * or error, and leaves a pending job without a file pending.
   */
  lemma ProcessAllTouchesOnlyPending(snapshot: seq<ExtractionResult>, outcomes: seq<Outcome>)
    requires |outcomes| == |snapshot|
    ensures var r := ProcessAll(snapshot, outcomes);
      forall i :: 0 <= i < |snapshot| ==>
        && r[i].fileName == snapshot[i].fileName
        && (snapshot[i].status != Pending ==> r[i] == snapshot[i])
        && (snapshot[i].status == Pending && snapshot[i].file.Some? ==> Terminal(r[i].status))
        && (snapshot[i].status == Pending && snapshot[i].file.None? ==> r[i] == snapshot[i])
  {
  }

  /**
   * Failure isolation: the final state of job `i` does not depend on the
   * outcome of any other job, so a failing job `j` cannot stop job `i`.
   */
  lemma FailureIsolation(snapshot: seq<ExtractionResult>, outcomes: seq<Outcome>, j: int, other: Outcome, i: int)
    requires |outcomes| == |snapshot| && 0 <= j < |snapshot| && 0 <= i < |snapshot| && i != j
    ensures ProcessAll(snapshot, outcomes[j := other])[i] == ProcessAll(snapshot, outcomes)[i]
  {
  }

  /**
   * From a list in which every job is consistent, a run yields a list in
   * which every job is consistent and none is pending: all end in success or error.
   */
  lemma ProcessAllSettlesConsistentList(snapshot: seq<ExtractionResult>, outcomes: seq<Outcome>)
    requires |outcomes| == |snapshot|
    requires forall i :: 0 <= i < |snapshot| ==> Consistent(snapshot[i])
    ensures var r := ProcessAll(snapshot, outcomes);
      forall i :: 0 <= i < |r| ==> Consistent(r[i]) && Terminal(r[i].status)
  {
  }

  /**
   * A run finishes every job exactly when, in its snapshot, no job is
   * processing and every pending job has its file.
   */
  lemma RunFinishesEveryJobIff(snapshot: seq<ExtractionResult>, outcomes: seq<Outcome>)
    requires |outcomes| == |snapshot|
    ensures (forall i :: 0 <= i < |snapshot| ==> Terminal(ProcessAll(snapshot, outcomes)[i].status)) <==>
      (forall i :: 0 <= i < |snapshot| ==>
         snapshot[i].status != Processing && (snapshot[i].status == Pending ==> snapshot[i].file.Some?))
  {
    var after := ProcessAll(snapshot, outcomes);
    forall i | 0 <= i < |snapshot|
      ensures Terminal(after[i].status) <==>
        snapshot[i].status != Processing && (snapshot[i].status == Pending ==> snapshot[i].file.Some?)
    {
      assert after[i] == Settle(snapshot[i], outcomes[i]);
    }
  }

  /** A run over a list with nothing pending changes nothing. */
  lemma ProcessAllWithoutPendingIsNoOp(snapshot: seq<ExtractionResult>, outcomes: seq<Outcome>)
    requires |outcomes| == |snapshot|
    requires !AnyWithStatus(snapshot, Pending)
    ensures ProcessAll(snapshot, outcomes) == snapshot
  {
  }

  /** Two jobs, the first of whose extraction throws "Network timeout": it fails, the second still succeeds. */
  lemma NetworkTimeoutScenario(a: File, b: File, data: ExtractedData)
    ensures var r := ProcessAll([NewJob(a), NewJob(b)], [Fail(Some("Network timeout")), Ok(Some(data))]);
      && r[0] == ExtractionResult(a.name, Error, None, Some("Network timeout"), Some(a))
      && r[1] == ExtractionResult(b.name, Success, Some(data), None, Some(b))
  {
  }

  // ------------------------------------------------------------ the component

  class App {
    var results: seq<ExtractionResult>
    var isProcessing: bool

    /** Every job carries its file, none is caught half-way through processing, and every failed job carries its message. */
    ghost predicate Valid()
      reads this
    {
      forall i :: 0 <= i < |results| ==> Consistent(results[i])
    }

    constructor ()
      ensures results == [] && !isProcessing && Valid()
    {
      results := [];
      isProcessing := false;
    }

    function HasPending(): (b: bool)
      reads this
      ensures b <==> exists i :: 0 <= i < |results| && results[i].status == Pending
    {
      AnyWithStatus(results, Pending)
    }

    function HasSuccess(): (b: bool)
      reads this
      ensures b <==> exists i :: 0 <= i < |results| && results[i].status == Success
    {
      AnyWithStatus(results, Success)
    }

    /** The files-selected callback: one pending job per file is appended. */
    method HandleFilesSelected(files: seq<File>)
      modifies this
      ensures results == Enqueue(old(results), files)
      ensures isProcessing == old(isProcessing)
      ensures old(Valid()) ==> Valid()
    {
      results := Enqueue(results, files);
    }

    /** Clearing the list, once the user has answered the confirmation. */
    method HandleClear(confirmed: bool)
      modifies this
      ensures results == if confirmed then [] else old(results)
      ensures isProcessing == old(isProcessing)
      ensures old(Valid()) ==> Valid()
    {
      if confirmed {
        results := [];
      }
    }

    /** A drop on the drop zone, which the component disables while processing. */
    method OnDrop(dropped: seq<File>)
      modifies this
      ensures results == match Intake.HandleDrop(old(isProcessing), dropped)
        case None => old(results)
        case Some(files) => Enqueue(old(results), files)
      ensures isProcessing == old(isProcessing)
      ensures old(Valid()) ==> Valid()
    {
      var forwarded := Intake.HandleDrop(isProcessing, dropped);
      if forwarded.Some? {
        HandleFilesSelected(forwarded.value);
      }
    }

    /** A selection through the file input, which is disabled while processing. */
    method OnFileInput(selected: Option<seq<File>>)
      modifies this
      ensures results == match Intake.HandleFileInput(old(isProcessing), selected)
        case None => old(results)
        case Some(files) => Enqueue(old(results), files)
      ensures isProcessing == old(isProcessing)
      ensures old(Valid()) ==> Valid()
    {
      var forwarded := Intake.HandleFileInput(isProcessing, selected);
      if forwarded.Some? {
        HandleFilesSelected(forwarded.value);
      }
    }

    /**
     * The body of one iteration of the run for a pending job with a file:
     * the job is published as processing, then as success or error.
     * `views` are the two views published.
     */
    method RunJob(index: int, outcome: Outcome) returns (ghost views: seq<View>)
      requires 0 <= index < |results| && results[index].status == Pending
      modifies this
      ensures results == old(results)[index := Complete(MarkProcessing(old(results)[index]), outcome)]
      ensures isProcessing == old(isProcessing)
      ensures |views| == 2 && views[1] == View(results, isProcessing) && views[0].isProcessing == isProcessing
      ensures views[0].results == old(results)[index := MarkProcessing(old(results)[index])]
      ensures SingleUpdate(old(results), views[0].results) && SingleUpdate(views[0].results, views[1].results)
    {
      var marked := MarkProcessing(results[index]);
      UpdateAtIsSingle(results, index, marked);
      results := results[index := marked];
      views := [View(results, isProcessing)];
      var done := Complete(results[index], outcome);
      UpdateAtIsSingle(results, index, done);
      results := results[index := done];
      views := views + [View(results, isProcessing)];
    }

    /**
     * One iteration of the run, at pending position `index` of the snapshot:
     * a job without a file is skipped, any other is run. `visited` are the
     * positions handled before, and `trace` the views published so far.
     */
    method VisitPending(snapshot: seq<ExtractionResult>, outcomes: seq<Outcome>, ghost visited: seq<int>,
                        index: int, ghost trace: seq<View>) returns (ghost trace': seq<View>)
      requires |outcomes| == |snapshot| && isProcessing && SettledAt(results, snapshot, outcomes, visited)
      requires 0 <= index < |snapshot| && index !in visited && snapshot[index].status == Pending
      requires forall i :: 0 <= i < index && snapshot[i].status == Pending ==> i in visited
      requires forall i :: i in visited ==> i < index
      requires |trace| >= 2 && trace[|trace| - 1] == View(results, true)
      requires Busy(trace) && Chain(trace) && NonPendingUntouched(trace, snapshot) && InOrder(trace, snapshot)
      modifies this
      ensures isProcessing && SettledAt(results, snapshot, outcomes, visited + [index])
      ensures |trace'| >= |trace| && trace'[0] == trace[0] && trace'[|trace'| - 1] == View(results, true)
      ensures Busy(trace') && Chain(trace') && NonPendingUntouched(trace', snapshot)
      ensures forall i :: SeenProcessing(trace, i) ==> SeenProcessing(trace', i)
      ensures snapshot[index].file.Some? ==> SeenProcessing(trace', index)
      ensures InOrder(trace', snapshot)
    {
      VisitKeepsSettled(results, snapshot, outcomes, visited, index);
      if snapshot[index].file.None? {
        return trace;
      }
      UpdateAtKeepsOrder(results, snapshot, outcomes, visited, index, MarkProcessing(results[index]));
      UpdateAtKeepsOrder(results, snapshot, outcomes, visited, index, Settle(snapshot[index], outcomes[index]));
      ghost var views := RunJob(index, outcomes[index]);
      ExtendTrace(trace, snapshot, views[0]);
      ghost var middle := trace + [views[0]];
      assert middle[|middle| - 1].results[index].status == Processing;
      ExtendTrace(middle, snapshot, views[1]);
      trace' := middle + [views[1]];
    }

    /**
     * The loop of a run: the positions `indices` of the snapshot are visited
     * in order, starting from the unchanged snapshot with the flag set.
     */
    method VisitAll(snapshot: seq<ExtractionResult>, outcomes: seq<Outcome>, indices: seq<int>,
                    ghost trace: seq<View>) returns (ghost trace': seq<View>)
      requires |outcomes| == |snapshot| && results == snapshot && isProcessing
      requires forall k :: 0 <= k < |indices| ==> 0 <= indices[k] < |snapshot| && snapshot[indices[k]].status == Pending
      requires forall i :: 0 <= i < |snapshot| && snapshot[i].status == Pending ==> i in indices
      requires StrictlyIncreasing(indices)
      requires |trace| >= 2 && trace[|trace| - 1] == View(results, true)
      requires Busy(trace) && Chain(trace) && NonPendingUntouched(trace, snapshot) && InOrder(trace, snapshot)
      modifies this
      ensures isProcessing && SettledAt(results, snapshot, outcomes, indices)
      ensures |trace'| >= 2 && trace'[0] == trace[0] && trace'[|trace'| - 1] == View(results, true)
      ensures Busy(trace') && Chain(trace') && NonPendingUntouched(trace', snapshot)
      ensures forall i :: i in indices && snapshot[i].file.Some? ==> SeenProcessing(trace', i)
      ensures InOrder(trace', snapshot)
    {
      trace' := trace;
      var n := 0;
      while n < |indices|
        invariant 0 <= n <= |indices|
        invariant isProcessing && SettledAt(results, snapshot, outcomes, indices[..n])
        invariant |trace'| >= 2 && trace'[0] == trace[0] && trace'[|trace'| - 1] == View(results, true)
        invariant Busy(trace') && Chain(trace') && NonPendingUntouched(trace', snapshot) && InOrder(trace', snapshot)
        invariant forall i :: i in indices[..n] && snapshot[i].file.Some? ==> SeenProcessing(trace', i)
      {
        var index := indices[n];
        assert index !in indices[..n];
        forall i | 0 <= i < index && snapshot[i].status == Pending ensures i in indices[..n] {
          var m :| 0 <= m < |indices| && indices[m] == i;
          assert m < n;
        }
        assert indices[..n + 1] == indices[..n] + [index];
        trace' := VisitPending(snapshot, outcomes, indices[..n], index, trace');
        n := n + 1;
      }
      assert indices[..n] == indices;
    }

    /**
     * One processing run. It snapshots the pending positions and visits them
     * in order; for each whose job has a file it publishes the job as
     * processing and then as success or error. `trace` is every view the run
     * publishes, from the state before the run to the state after it.
     */
    method ProcessFiles(outcomes: seq<Outcome>) returns (ghost trace: seq<View>)
      requires |outcomes| == |results|
      modifies this
      ensures results == ProcessAll(old(results), outcomes)
      ensures !isProcessing
      ensures old(Valid()) ==> Valid() && forall i :: 0 <= i < |results| ==> Terminal(results[i].status)
      ensures RunTrace(trace, old(results), old(isProcessing), results)
    {
      var snapshot := results;
      trace := [View(results, isProcessing)];
      assert OrderedView(snapshot, snapshot);
      assert InOrder(trace, snapshot);
      isProcessing := true;
      ExtendTrace(trace, snapshot, View(results, isProcessing));
      trace := trace + [View(results, isProcessing)];
      var indices := PendingIndices(snapshot);
      trace := VisitAll(snapshot, outcomes, indices, trace);
      CloseRun(trace, snapshot, old(isProcessing), outcomes, results, indices);
      if old(Valid()) {
        ProcessAllSettlesConsistentList(snapshot, outcomes);
      }
      isProcessing := false;
      trace := trace + [View(results, isProcessing)];
    }
  }
}
