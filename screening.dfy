/** The "Analyze" callback: the request gate, the loop that turns every
    uploaded document into exactly one row whether or not its processing
    failed, and the ranked report with its summary. */
module Screening {
  import opened Classifier
  import opened Results
  import opened Ranking

  datatype Option<T> = None | Some(value: T)

  /** Python truthiness of a value that is None, a list or a string. */
  predicate Truthy<T>(o: Option<seq<T>>) {
    o.Some? && o.value != []
  }

  /** What the gate decides before any document is touched. */
  datatype Gate = Idle | Rejected | Admitted

  /** No click yet: nothing to show. Clicked without an upload or without a
      job description (absent or empty): the alert. Only then is the batch
      processed; a job description of blanks only is not empty and passes. */
  function Admit(nClicks: nat, contents: Option<seq<string>>, jobDesc: Option<string>): (g: Gate)
    ensures g == Idle <==> nClicks == 0
    ensures g == Rejected <==>
      nClicks != 0 && (contents.None? || |contents.value| == 0 || jobDesc.None? || |jobDesc.value| == 0)
    ensures g == Admitted ==> |contents.value| > 0 && |jobDesc.value| > 0
  {
    if nClicks == 0 then Idle
    else if !Truthy(contents) || !Truthy(jobDesc) then Rejected
    else Admitted
  }

  /** A job description of blanks only (spaces, tabs, line breaks) is a
      non-empty string, so the gate lets it through. */
  lemma BlankJobDescriptionIsAdmitted(nClicks: nat, contents: seq<string>, jobDesc: string)
    requires nClicks > 0 && contents != [] && jobDesc != []
    requires forall k :: 0 <= k < |jobDesc| ==> jobDesc[k] in {' ', '\t', '\n', '\r'}
    ensures Admit(nClicks, Some(contents), Some(jobDesc)) == Admitted
  {
  }

  const AlertMessage: string := "Please upload resumes and provide a job description."

  /** What the callback puts in the results area. */
  datatype Response = Blank | Alert(message: string) | Report(summary: Summary, table: seq<Entry>)

  /** The per-document work of the try block, from the uploaded content, its
      file name and the job description to a score or an exception. */
  type Process = (string, string, string) -> Outcome

  function Min(m: nat, n: nat): nat {
    if m <= n then m else n
  }

  /** The rows the loop collects: zip pairs the contents with the file names
      up to the shorter of the two, and each pair gives the row of its own
      outcome. */
  function Screened(contents: seq<string>, filenames: seq<string>, jobDesc: string, process: Process): seq<Entry> {
    var n := Min(|contents|, |filenames|);
    seq(n, i requires 0 <= i < n => EntryFor(filenames[i], process(contents[i], filenames[i], jobDesc)))
  }

  /** The loop over zip(contents, filenames): one appended row per pair. */
  method Collect(contents: seq<string>, filenames: seq<string>, jobDesc: string, process: Process)
    returns (results: seq<Entry>)
    ensures results == Screened(contents, filenames, jobDesc, process)
  {
    var n := Min(|contents|, |filenames|);
    results := [];
    var i := 0;
    while i < n
      invariant 0 <= i <= n
      invariant |results| == i
      invariant forall k :: 0 <= k < i ==>
        results[k] == EntryFor(filenames[k], process(contents[k], filenames[k], jobDesc))
    {
      var outcome := process(contents[i], filenames[i], jobDesc);
      results := results + [EntryFor(filenames[i], outcome)];
      i := i + 1;
    }
  }

  /** No document is dropped or duplicated: row i belongs to document i,
      names its file, and reads as an error with score 0 exactly when that
      document failed. */
  lemma ScreenedRowPerDocument(contents: seq<string>, filenames: seq<string>, jobDesc: string, process: Process)
    ensures |Screened(contents, filenames, jobDesc, process)| == Min(|contents|, |filenames|)
    ensures forall i :: 0 <= i < |Screened(contents, filenames, jobDesc, process)| ==>
      var row := Screened(contents, filenames, jobDesc, process)[i];
      var outcome := process(contents[i], filenames[i], jobDesc);
      && row.resume == filenames[i]
      && (IsErrorText(row.recommendation) <==> outcome.Failed?)
      && (outcome.Failed? ==> row.score == 0.0)
      && (outcome.Scored? ==> row.score == outcome.score)
  {
  }

  /** Failure isolation: whatever happens to document k, every other row is
      the same as it would have been. */
  lemma FailureIsIsolated(contents: seq<string>, filenames: seq<string>, jobDesc: string, p: Process, q: Process, k: nat)
    requires forall j :: 0 <= j < Min(|contents|, |filenames|) && j != k ==>
      p(contents[j], filenames[j], jobDesc) == q(contents[j], filenames[j], jobDesc)
    ensures |Screened(contents, filenames, jobDesc, p)| == |Screened(contents, filenames, jobDesc, q)|
    ensures forall j :: 0 <= j < |Screened(contents, filenames, jobDesc, p)| && j != k ==>
      Screened(contents, filenames, jobDesc, p)[j] == Screened(contents, filenames, jobDesc, q)[j]
  {
  }

  /** The callback. The source indexes the first ranked row, so it fails when
      zip yields nothing; it fails as well when there are contents but no file
      names. The precondition excludes those two crashes. */
  method AnalyzeResumes(nClicks: nat, contents: Option<seq<string>>, filenames: Option<seq<string>>,
                        jobDesc: Option<string>, process: Process)
    returns (resp: Response)
    requires Admit(nClicks, contents, jobDesc) == Admitted ==> filenames.Some? && filenames.value != []
    ensures nClicks == 0 ==> resp == Blank
    ensures Admit(nClicks, contents, jobDesc) == Rejected ==> resp == Alert(AlertMessage)
    ensures Admit(nClicks, contents, jobDesc) == Admitted ==>
      var rows := Screened(contents.value, filenames.value, jobDesc.value, process);
      resp == Report(Summarize(Rank(rows)), Rank(rows))
    ensures resp.Report? ==>
      && |resp.table| == Min(|contents.value|, |filenames.value|)
      && SortedDescending(resp.table)
      && resp.summary.count == |resp.table|
      && forall e :: e in resp.table ==> e.score <= resp.summary.topScore
  {
    if nClicks == 0 {
      return Blank;
    }
    if !Truthy(contents) || !Truthy(jobDesc) {
      return Alert(AlertMessage);
    }
    var rows := Collect(contents.value, filenames.value, jobDesc.value, process);
    var ranked := Rank(rows);
    resp := Report(Summarize(ranked), ranked);
  }
}
