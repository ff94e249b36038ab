/** The decisions of the Streamlit page: validating an uploaded table and loading it, the
    clear and reload buttons, the document count, and the submit pipeline (non-forced load,
    extraction, then per job a query and a composed answer). Widgets, layout and the wording
    of messages are not modelled: what the page shows is a sequence of notices. Loading and
    cleaning the job page is an input: its text, or the failure that occurred. */
module App {
  import opened Outcomes
  import opened JsonValues
  import opened Tables
  import opened Chroma
  import opened Chains
  import opened Portfolios

  const RequiredColumns: seq<string> := [DocumentColumn, LinksColumn]

  /** What the page shows. */
  datatype Notice =
    | MissingColumnsError(missing: seq<string>)  // "Missing required columns: ..."
    | CsvLoaded(rows: nat)                       // success, then "Loaded n rows to database"
    | CsvNotUtf8                                 // the upload is not UTF-8
    | CsvEmpty                                   // the upload is empty
    | CsvError(message: string)                  // any other failure while reading the upload
    | Cleared                                    // "Vector database cleared successfully!"
    | UploadFirst                                // "Please upload a CSV file first!"
    | Reloaded                                   // "Vector database reloaded successfully!"
    | ReloadError(error: Exception)
    | DocumentCount(count: nat)                  // "Total documents: n"
    | MailShown(text: string)                    // one composed answer
    | SubmitError(error: Exception)              // "An Error Occurred: ..."

  /** What reading the uploaded file with `pd.read_csv(..., encoding='utf-8')` gave. */
  datatype UploadRead =
    | Parsed(table: Table)
    | NotUtf8
    | EmptyFile
    | ReadFailed(message: string)

  /** What loading and cleaning the job page gave: its cleaned text, or the failure raised
      by the loader. */
  datatype PageFetch =
    | Fetched(text: string)
    | FetchFailed(message: string)

  /** `[col for col in required if col not in columns]` */
  function Absent(required: seq<string>, columns: seq<string>): (r: seq<string>)
    ensures forall c :: c in r <==> c in required && c !in columns
    ensures |r| <= |required|
  {
    if required == [] then []
    else (if required[0] in columns then [] else [required[0]]) + Absent(required[1..], columns)
  }

  /** The missing required columns of an upload, in the order `Techstack`, `Links`. */
  function MissingColumns(columns: seq<string>): (missing: seq<string>)
    ensures missing == (if DocumentColumn in columns then [] else [DocumentColumn])
                       + (if LinksColumn in columns then [] else [LinksColumn])
    ensures missing == [] <==> DocumentColumn in columns && LinksColumn in columns
  {
    assert RequiredColumns[1..] == [LinksColumn] && RequiredColumns[1..][1..] == [];
    assert Absent([LinksColumn], columns) == (if LinksColumn in columns then [] else [LinksColumn]) + Absent([], columns);
    Absent(RequiredColumns, columns)
  }

  /** The upload branch of the sidebar. */
  method HandleUpload(p: Portfolio, upload: UploadRead) returns (notices: seq<Notice>)
    requires p.Valid()
    modifies p, p.collection, p.client
    ensures p.Valid() && p.collection == old(p.collection) && p.client.collections == old(p.client.collections)
    ensures !upload.Parsed? ==>
              notices == (match upload
                          case NotUtf8 => [CsvNotUtf8]
                          case EmptyFile => [CsvEmpty]
                          case ReadFailed(m) => [CsvError(m)]
                          case Parsed(_) => [])
    ensures !upload.Parsed? || MissingColumns(upload.table.columns) != [] ==>
              p.data == old(p.data) && p.collection.entries == old(p.collection.entries) && p.nextId == old(p.nextId)
    ensures upload.Parsed? && MissingColumns(upload.table.columns) != [] ==>
              notices == [MissingColumnsError(MissingColumns(upload.table.columns))]
    ensures upload.Parsed? && MissingColumns(upload.table.columns) == [] ==>
              && p.data == Some(upload.table)
              && |p.collection.entries| == |upload.table.rows|
              && (forall k :: 0 <= k < |upload.table.rows| ==>
                    p.collection.entries[k] == RowEntry(upload.table.rows[k], old(p.nextId) + k))
              && notices == [CsvLoaded(|upload.table.rows|)]
  {
    match upload {
      case NotUtf8 => notices := [CsvNotUtf8];
      case EmptyFile => notices := [CsvEmpty];
      case ReadFailed(m) => notices := [CsvError(m)];
      case Parsed(df) =>
        var missing := MissingColumns(df.columns);
        if missing != [] {
          notices := [MissingColumnsError(missing)];
        } else {
          p.data := Some(df);
          ForcedLoadReplaces(p.collection.entries, df, p.nextId);
          // both columns are present, so no row raises KeyError
          var status := p.LoadPortfolio(true);
          assert status.Ok?;
          notices := [CsvLoaded(|df.rows|)];
        }
    }
  }

  /** The "Clear Database" button. */
  method ClearDatabase(p: Portfolio) returns (notices: seq<Notice>)
    requires p.Valid()
    modifies p, p.collection, p.client
    ensures p.Valid() && p.collection == old(p.collection) && p.client.collections == old(p.client.collections)
    ensures p.collection.entries == [] && p.data == old(p.data) && p.nextId == old(p.nextId)
    ensures notices == [Cleared]
  {
    p.ClearCollection();
    notices := [Cleared];
  }

  /** The "Reload Database" button: a forced load, only when the table is present. */
  method ReloadDatabase(p: Portfolio) returns (notices: seq<Notice>)
    requires p.Valid()
    modifies p, p.collection, p.client
    ensures p.Valid() && p.collection == old(p.collection) && p.client.collections == old(p.client.collections)
    ensures p.data == old(p.data)
    ensures p.data.None? ==>
              notices == [UploadFirst] && p.collection.entries == old(p.collection.entries) && p.nextId == old(p.nextId)
    ensures p.data.Some? ==>
              var load := LoadEffect(old(p.collection.entries), p.data, true, old(p.nextId));
              && p.collection.entries == load.0
              && notices == (if load.1.Ok? then [Reloaded] else [ReloadError(load.1.error)])
  {
    if p.data.None? {
      notices := [UploadFirst];
    } else {
      var status := p.LoadPortfolio(true);
      notices := if status.Ok? then [Reloaded] else [ReloadError(status.error)];
    }
  }

  /** `job.get('skills', [])`; a job that is not a JSON object has no `get`. */
  function JobSkills(job: Json): (r: Result<Json>)
    ensures job.JObject? <==> r.Ok?
    ensures job.JObject? ==> r.value == if "skills" in job.fields then job.fields["skills"] else JArray([])
  {
    match job
    case JObject(fields) => Ok(if "skills" in fields then fields["skills"] else JArray([]))
    case _ => Raised(AttributeError("get"))
  }

  /** The links a job's skills retrieve. */
  function JobLinks(p: Portfolio, job: Json): (r: Result<seq<seq<Metadata>>>)
    reads p, p.collection
    ensures !job.JObject? ==> r == Raised(AttributeError("get"))
    ensures job.JObject? ==> r == p.QueryLinks(JobSkills(job).value)
    ensures r.Ok? ==> forall i :: 0 <= i < |r.value| ==>
              |r.value[i]| <= ResultsPerSkill && forall m :: m in r.value[i] ==> Stored(p.collection.entries, m)
  {
    match JobSkills(job)
    case Raised(e) => Raised(e)
    case Ok(skills) => p.QueryLinks(skills)
  }

  /** The answers shown so far, the exception that ended the loop if any, and the model. */
  datatype Run = Run(shown: seq<string>, error: Option<Exception>, llm: Llm)

  /** The `for job in jobs` loop inside the one `try` of the submit path: per job, skills,
      one query and one composed answer shown; the first exception ends the whole loop. */
  function ProcessJobs(p: Portfolio, jobs: seq<Json>, llm: Llm): (r: Run)
    reads p, p.collection
    ensures r.llm.sample == llm.sample
    ensures |r.shown| <= |jobs|
    ensures r.error.None? ==> |r.llm.calls| == |llm.calls| + |jobs|
    decreases |jobs|
  {
    if jobs == [] then Run([], None, llm)
    else
      match JobLinks(p, jobs[0])
      case Raised(e) => Run([], Some(e), llm)
      case Ok(links) =>
        var composed := WriteMail(llm, jobs[0], links);
        match composed.0
        case Raised(e) => Run([], Some(e), composed.1)
        case Ok(text) =>
          var rest := ProcessJobs(p, jobs[1..], composed.1);
          Run([text] + rest.shown, rest.error, rest.llm)
  }

  /** How far the loop gets: every job when nothing raises, otherwise the jobs before the
      first failing one; one model call per job shown, at most one more for the job that
      raised, and none for the jobs after it. */
  lemma {:induction false} ProcessJobsProgress(p: Portfolio, jobs: seq<Json>, llm: Llm)
    ensures var r := ProcessJobs(p, jobs, llm);
            && r.llm.sample == llm.sample
            && |r.shown| <= |jobs|
            && (r.error.None? <==> |r.shown| == |jobs|)
            && |llm.calls| + |r.shown| <= |r.llm.calls| <= |llm.calls| + |r.shown| + 1
            && (r.error.None? ==> |r.llm.calls| == |llm.calls| + |jobs|)
            && r.llm.calls[..|llm.calls|] == llm.calls
    decreases |jobs|
  {
    if jobs != [] && JobLinks(p, jobs[0]).Ok? {
      var composed := WriteMail(llm, jobs[0], JobLinks(p, jobs[0]).value);
      if composed.0.Ok? {
        ProcessJobsProgress(p, jobs[1..], composed.1);
        var rest := ProcessJobs(p, jobs[1..], composed.1);
        assert rest.llm.calls[..|llm.calls|] == rest.llm.calls[..|composed.1.calls|][..|llm.calls|];
      }
    }
  }

  /** Job k (among those shown) was composed by the (k+1)-th model call of the loop, with the
      job itself and the links its skills retrieved, and its answer is that call's content. */
  lemma {:induction false} ProcessJobsComposes(p: Portfolio, jobs: seq<Json>, llm: Llm, k: nat)
    requires k < |ProcessJobs(p, jobs, llm).shown|
    ensures var r := ProcessJobs(p, jobs, llm);
            && k < |jobs|
            && JobLinks(p, jobs[k]).Ok?
            && |llm.calls| + k < |r.llm.calls|
            && r.llm.calls[|llm.calls| + k] == MailPrompt(jobs[k], JobLinks(p, jobs[k]).value)
            && llm.sample(|llm.calls| + k, r.llm.calls[|llm.calls| + k]) == Content(r.shown[k])
    decreases |jobs|
  {
    var links := JobLinks(p, jobs[0]).value;
    var composed := WriteMail(llm, jobs[0], links);
    var rest := ProcessJobs(p, jobs[1..], composed.1);
    ProcessJobsProgress(p, jobs[1..], composed.1);
    if k > 0 {
      ProcessJobsComposes(p, jobs[1..], composed.1, k - 1);
    } else {
      assert rest.llm.calls[..|composed.1.calls|] == composed.1.calls;
      assert rest.llm.calls[|llm.calls|] == composed.1.calls[|llm.calls|];
    }
  }

  /** No isolation between jobs: once a list of jobs ends in an exception, jobs after it are
      never reached; otherwise the loop simply goes on with the next jobs. */
  lemma {:induction false} ProcessJobsAppend(p: Portfolio, jobs: seq<Json>, more: seq<Json>, llm: Llm)
    ensures var r := ProcessJobs(p, jobs, llm);
            && (r.error.Some? ==> ProcessJobs(p, jobs + more, llm) == r)
            && (r.error.None? ==>
                  var s := ProcessJobs(p, more, r.llm);
                  ProcessJobs(p, jobs + more, llm) == Run(r.shown + s.shown, s.error, s.llm))
    decreases |jobs|
  {
    if jobs == [] {
      assert jobs + more == more;
    } else {
      assert (jobs + more)[0] == jobs[0] && (jobs + more)[1..] == jobs[1..] + more;
      if JobLinks(p, jobs[0]).Ok? {
        var composed := WriteMail(llm, jobs[0], JobLinks(p, jobs[0]).value);
        if composed.0.Ok? {
          ProcessJobsAppend(p, jobs[1..], more, composed.1);
        }
      }
    }
  }

  /** The job loop as the page runs it. */
  method RunJobs(p: Portfolio, jobs: seq<Json>, llm: Llm) returns (run: Run)
    ensures run == ProcessJobs(p, jobs, llm)
  {
    var shown: seq<string> := [];
    var error: Option<Exception> := None;
    var current := llm;
    var i := 0;
    while i < |jobs| && error.None?
      invariant 0 <= i <= |jobs|
      invariant error.None? ==>
                  var rest := ProcessJobs(p, jobs[i..], current);
                  ProcessJobs(p, jobs, llm) == Run(shown + rest.shown, rest.error, rest.llm)
      invariant error.Some? ==> ProcessJobs(p, jobs, llm) == Run(shown, error, current)
    {
      var job := jobs[i];
      assert jobs[i..][0] == job && jobs[i..][1..] == jobs[i + 1..];
      var skills := JobSkills(job);
      if skills.Raised? {
        error := Some(skills.error);
      } else {
        var links := p.QueryLinks(skills.value);
        if links.Raised? {
          error := Some(links.error);
        } else {
          var composed := WriteMail(current, job, links.value);
          current := composed.1;
          if composed.0.Raised? {
            error := Some(composed.0.error);
          } else {
            shown := shown + [composed.0.value];
          }
        }
      }
      i := i + 1;
    }
    if error.None? {
      assert jobs[i..] == [];
    }
    run := Run(shown, error, current);
  }

  /** What the page shows for a run of the job loop. */
  function RunNotices(run: Run): (notices: seq<Notice>)
    ensures |notices| == |run.shown| + (if run.error.Some? then 1 else 0)
    ensures forall k :: 0 <= k < |run.shown| ==> notices[k] == MailShown(run.shown[k])
    ensures run.error.Some? ==> notices[|run.shown|] == SubmitError(run.error.value)
  {
    seq(|run.shown|, k requires 0 <= k < |run.shown| => MailShown(run.shown[k]))
      + (if run.error.Some? then [SubmitError(run.error.value)] else [])
  }

  /** The "Submit" button: a non-forced load, extraction of the jobs from the page text,
      then the job loop; one `try` around all of it. */
  method Submit(p: Portfolio, page: PageFetch, llm: Llm, parse: Parser) returns (notices: seq<Notice>, llm': Llm)
    requires p.Valid()
    modifies p, p.collection, p.client
    ensures p.Valid() && p.collection == old(p.collection) && p.client.collections == old(p.client.collections)
    ensures p.data == old(p.data)
    ensures page.FetchFailed? ==>
              notices == [SubmitError(FetchFailure(page.message))] && llm' == llm
              && p.collection.entries == old(p.collection.entries) && p.nextId == old(p.nextId)
    ensures page.Fetched? ==>
              var load := LoadEffect(old(p.collection.entries), p.data, false, old(p.nextId));
              && p.collection.entries == load.0
              && (load.1.Raised? ==> notices == [SubmitError(load.1.error)] && llm' == llm)
              && (load.1.Ok? ==>
                    var extracted := ExtractJobs(llm, parse, page.text);
                    && (extracted.0.Raised? ==> notices == [SubmitError(extracted.0.error)] && llm' == extracted.1)
                    && (extracted.0.Ok? ==>
                          var run := ProcessJobs(p, extracted.0.value, extracted.1);
                          notices == RunNotices(run) && llm' == run.llm))
  {
    if page.FetchFailed? {
      notices := [SubmitError(FetchFailure(page.message))];
      llm' := llm;
      return;
    }
    var status := p.LoadPortfolio(false);
    if status.Raised? {
      notices := [SubmitError(status.error)];
      llm' := llm;
      return;
    }
    var extracted := ExtractJobs(llm, parse, page.text);
    if extracted.0.Raised? {
      notices := [SubmitError(extracted.0.error)];
      llm' := extracted.1;
      return;
    }
    var run := RunJobs(p, extracted.0.value, extracted.1);
    notices := RunNotices(run);
    llm' := run.llm;
  }

  /** One run of the page script: the upload branch (when a file is in the uploader), the
      clear and reload buttons, the document count, then the submit button. */
  method CreateStreamlitApp(p: Portfolio, upload: Option<UploadRead>, clearPressed: bool, reloadPressed: bool,
                            submitted: Option<PageFetch>, llm: Llm, parse: Parser)
    returns (notices: seq<Notice>, llm': Llm)
    requires p.Valid()
    modifies p, p.collection, p.client
    ensures p.Valid() && p.collection == old(p.collection)
    ensures submitted.None? ==> llm' == llm
    ensures upload.None? && !clearPressed && !reloadPressed && submitted.None? ==>
              p.collection.entries == old(p.collection.entries) && p.data == old(p.data)
              && notices == [DocumentCount(|p.collection.entries|)]
    ensures clearPressed && !reloadPressed && submitted.None? ==>
              p.collection.entries == [] && DocumentCount(0) in notices
  {
    notices := [];
    if upload.Some? {
      var shown := HandleUpload(p, upload.value);
      notices := notices + shown;
    }
    if clearPressed {
      var shown := ClearDatabase(p);
      notices := notices + shown;
    }
    if reloadPressed {
      var shown := ReloadDatabase(p);
      notices := notices + shown;
    }
    var count := p.collection.Count();
    notices := notices + [DocumentCount(count)];
    llm' := llm;
    if submitted.Some? {
      var shown;
      shown, llm' := Submit(p, submitted.value, llm, parse);
      notices := notices + shown;
    }
  }
}
