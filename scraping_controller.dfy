/** The scraping job orchestrator of api/controllers/scraping_controller.py:
    parameter validation, the in-memory job table, the worker that takes a
    job from `pending` through `running` to `completed` or `failed`, and the
    two read operations. The background thread is modelled as the worker
    being run as separate steps on one job id; what the crawl, the output
    directory and the two file saves do is an input to the worker. */
module ScrapingController {
  import opened Values
  import DataProcessor
  import BookRepository

  // ------------------------------------------------------------ parameters

  datatype Format = Json | Csv | Both

  /** `output_format in ['json', 'csv', 'both']`: only those three strings
      are accepted. */
  function ParseFormat(v: Value): (r: Option<Format>)
    ensures r.Some? <==> v in {Str("json"), Str("csv"), Str("both")}
    ensures r == Some(Json) <==> v == Str("json")
    ensures r == Some(Csv) <==> v == Str("csv")
    ensures r == Some(Both) <==> v == Str("both")
  {
    if v == Str("json") then Some(Json)
    else if v == Str("csv") then Some(Csv)
    else if v == Str("both") then Some(Both)
    else None
  }

  /** `isinstance(pages, int) and 1 <= pages <= 50`. A boolean passes the
      `isinstance` test and counts as 0 or 1. */
  predicate PagesOk(v: Value)
  {
    AsPyInt(v).Some? && 1 <= AsPyInt(v).value <= 50
  }

  /** The outcome of the checks at the top of `trigger_scraping`. */
  datatype Validation =
    | Invalid(error: string, message: string)
    | Valid(url: Value, pages: Value, format: Format, output: Value)

  /** The parameter defaults and checks of `trigger_scraping`; `pages` is
      checked before `format`. */
  function ValidateTrigger(params: map<string, Value>): (r: Validation)
    ensures var pages := Get(params, "pages", Int(2));
            var format := Get(params, "format", Str("both"));
            && (r.Valid? <==> PagesOk(pages) && ParseFormat(format).Some?)
            && (!PagesOk(pages) ==> r == Invalid("Invalid pages parameter", "Pages must be an integer between 1 and 50"))
            && (PagesOk(pages) && ParseFormat(format).None? ==>
                  r == Invalid("Invalid format parameter", "Format must be one of: json, csv, both"))
            && (r.Valid? ==> r.pages == pages && Some(r.format) == ParseFormat(format))
    ensures r.Valid? ==> (r.url == Get(params, "url", Str("http://books.toscrape.com"))
                          && r.output == Get(params, "output", Str("books")))
  {
    var url := Get(params, "url", Str("http://books.toscrape.com"));
    var pages := Get(params, "pages", Int(2));
    var format := Get(params, "format", Str("both"));
    var output := Get(params, "output", Str("books"));
    if !PagesOk(pages) then
      Invalid("Invalid pages parameter", "Pages must be an integer between 1 and 50")
    else match ParseFormat(format)
      case None => Invalid("Invalid format parameter", "Format must be one of: json, csv, both")
      case Some(f) => Valid(url, pages, f, output)
  }

  /** With no parameters at all the job crawls two pages of
      books.toscrape.com and writes both formats under the name `books`. */
  lemma DefaultParameters()
    ensures ValidateTrigger(map[]) == Valid(Str("http://books.toscrape.com"), Int(2), Both, Str("books"))
  {
  }

  /** Python's `True` is an `int`: `pages=True` is accepted as one page,
      while `pages=False` (zero) and `pages=2.0` are rejected. */
  lemma BooleanPages()
    ensures ValidateTrigger(map["pages" := Bool(true)]).Valid?
    ensures ValidateTrigger(map["pages" := Bool(false)]).Invalid?
    ensures ValidateTrigger(map["pages" := Num(2.0)]).Invalid?
  {
  }

  // ------------------------------------------------------------------ jobs

  datatype Status = Pending | Running | Completed | Failed

  /** How far along a job is; a job only ever moves to a higher rank. */
  function Rank(s: Status): nat
  {
    match s
    case Pending => 0
    case Running => 1
    case Completed => 2
    case Failed => 2
  }

  /** The `results` dict of a completed job. */
  datatype JobResults =
    | NoBooksFound                     // {'books_count': 0, 'message': 'No books found'}
    | Saved(booksCount: nat, files: seq<string>, report: DataProcessor.Report)

  /** The dict stored in `active_jobs` for one job. */
  datatype Job = Job(
    status: Status,
    url: Value,
    pages: Value,
    format: Format,
    output: Value,
    results: Option<JobResults>,
    error: Option<string>)

  /** The shape every stored job keeps: `results` is set exactly when the
      job completed, `error` exactly when it failed, never both. */
  predicate WellFormed(job: Job)
  {
    && (job.results.Some? <==> job.status == Completed)
    && (job.error.Some? <==> job.status == Failed)
  }

  /** `f"job_{self.job_counter}"`. */
  function JobId(n: nat): string
  {
    "job_" + NatToString(n)
  }

  /** Distinct counter values give distinct job ids. */
  lemma JobIdInjective(m: nat, n: nat)
    requires JobId(m) == JobId(n)
    ensures m == n
  {
    assert NatToString(m) == JobId(m)[4..] && NatToString(n) == JobId(n)[4..];
    NatToStringInjective(m, n);
  }

  /** The record `trigger_scraping` stores for validated parameters. */
  function PendingJob(v: Validation): (job: Job)
    requires v.Valid?
    ensures job.status == Pending && job.results == None && job.error == None
    ensures WellFormed(job)
    ensures job.url == v.url && job.pages == v.pages && job.format == v.format && job.output == v.output
  {
    Job(Pending, v.url, v.pages, v.format, v.output, None, None)
  }

  // ---------------------------------------------------------------- worker

  /** What `scraper.scrape(...)` does: return records, or raise with the
      given `str(e)`. */
  datatype CrawlOutcome = Crawled(books: seq<Record>) | CrawlRaised(message: string)

  /** What one file save does: return the path written, or raise. */
  datatype SaveOutcome = SavedAt(path: string) | SaveRaised(message: string)

  /** The file-system effects of the worker: creating the output directory
      (None when it succeeds, the exception text otherwise) and the two
      saves. */
  datatype PipelineIo = PipelineIo(mkdir: Option<string>, json: SaveOutcome, csv: SaveOutcome)

  predicate WantsJson(f: Format) { f == Json || f == Both }
  predicate WantsCsv(f: Format) { f == Csv || f == Both }

  /** The files a run saves when neither save it attempts raises: the json
      path, then the csv path, as far as the format asks for them. */
  function SavedFiles(f: Format, io: PipelineIo): seq<string>
    requires WantsJson(f) ==> io.json.SavedAt?
    requires WantsCsv(f) ==> io.csv.SavedAt?
  {
    (if WantsJson(f) then [io.json.path] else []) + (if WantsCsv(f) then [io.csv.path] else [])
  }

  /** The job a running job becomes when `_run_scraping` ends. */
  function Finished(job: Job, crawl: CrawlOutcome, io: PipelineIo): (j: Job)
    ensures j.status == Completed || j.status == Failed
    ensures j.(status := job.status, results := job.results, error := job.error) == job
    ensures j.status == Failed ==> j.results == job.results && j.error.Some?
    ensures j.status == Completed ==> j.error == job.error && j.results.Some?
    ensures crawl.CrawlRaised? ==> j.status == Failed && j.error == Some(crawl.message)
  {
    match crawl
    case CrawlRaised(message) => job.(status := Failed, error := Some(message))
    case Crawled(books) =>
      if books == [] then job.(status := Completed, results := Some(NoBooksFound))
      else if io.mkdir.Some? then job.(status := Failed, error := Some(io.mkdir.value))
      else if WantsJson(job.format) && io.json.SaveRaised? then job.(status := Failed, error := Some(io.json.message))
      else if WantsCsv(job.format) && io.csv.SaveRaised? then job.(status := Failed, error := Some(io.csv.message))
      else CompletedRun(job, books, io)
  }

  /** A run whose saves all succeeded: completed, with the cleaned count,
      the saved files and the report of the cleaned records. */
  function CompletedRun(job: Job, books: seq<Record>, io: PipelineIo): Job
    requires WantsJson(job.format) ==> io.json.SavedAt?
    requires WantsCsv(job.format) ==> io.csv.SavedAt?
  {
    var cleaned := DataProcessor.Clean(books);
    job.(status := Completed,
         results := Some(Saved(|cleaned|, SavedFiles(job.format, io), DataProcessor.GenerateReport(cleaned))))
  }

  /** The job completed with saved files (not the "No books found" result). */
  predicate SavedFilesOf(job: Job)
  {
    job.results.Some? && job.results.value.Saved?
  }

  /** A running job always ends completed or failed, keeps its parameters
      and stays well formed. */
  lemma FinishedIsTerminal(job: Job, crawl: CrawlOutcome, io: PipelineIo)
    requires job.status == Running && job.results == None && job.error == None
    ensures var j := Finished(job, crawl, io);
            && (j.status == Completed || j.status == Failed)
            && Rank(j.status) > Rank(job.status)
            && WellFormed(j)
            && j.(status := job.status, results := None, error := None) == job
  {
  }

  /** An exception from the crawl fails the job with its text. */
  lemma CrawlFailureFailsJob(job: Job, message: string, io: PipelineIo)
    ensures var j := Finished(job, CrawlRaised(message), io);
            j.status == Failed && j.error == Some(message) && j.results == job.results
  {
  }

  /** A crawl that finds nothing completes the job with no files. */
  lemma EmptyCrawlCompletes(job: Job, io: PipelineIo)
    ensures var j := Finished(job, Crawled([]), io);
            j.status == Completed && j.results == Some(NoBooksFound) && j.error == job.error
  {
  }

  /** With records and working file I/O, the job completes; its files are
      the json path exactly when the format asks for json and the csv path
      exactly when it asks for csv, json first; the count and the report
      are those of the cleaned records. */
  lemma SuccessfulRun(job: Job, books: seq<Record>, jsonPath: string, csvPath: string)
    requires books != []
    ensures var j := Finished(job, Crawled(books), PipelineIo(None, SavedAt(jsonPath), SavedAt(csvPath)));
            var cleaned := DataProcessor.Clean(books);
            && j.status == Completed
            && j.results.Some? && j.results.value.Saved?
            && j.results.value.booksCount == |cleaned|
            && j.results.value.report == DataProcessor.GenerateReport(cleaned)
            && var files := j.results.value.files;
               && |files| == (if WantsJson(job.format) then 1 else 0) + (if WantsCsv(job.format) then 1 else 0)
               && (WantsJson(job.format) ==> files[0] == jsonPath)
               && (WantsCsv(job.format) ==> files[|files| - 1] == csvPath)
  {
  }

  /** A save the format asks for that raises fails the job with that text;
      the json save comes first, so its failure wins. */
  lemma SaveFailureFailsJob(job: Job, books: seq<Record>, io: PipelineIo)
    requires books != [] && io.mkdir == None
    requires (WantsJson(job.format) && io.json.SaveRaised?) || (WantsCsv(job.format) && io.csv.SaveRaised?)
    ensures var j := Finished(job, Crawled(books), io);
            && j.status == Failed
            && j.results == job.results
            && j.error == Some(if WantsJson(job.format) && io.json.SaveRaised? then io.json.message else io.csv.message)
  {
  }

  // -------------------------------------------------------------- responses

  /** What `trigger_scraping` answers. */
  datatype TriggerResponse =
    | Rejected(error: string, message: string)
    | Started(jobId: string, url: Value, pages: Value, format: Format, output: Value)

  function TriggerCode(r: TriggerResponse): nat
  {
    if r.Rejected? then 400 else 202
  }

  /** What `get_job_status` answers. */
  datatype StatusResponse =
    | JobNotFound(error: string, message: string)
    | Snapshot(
        jobId: string, status: Status, url: Value, pages: Value, format: Format, output: Value,
        results: Option<JobResults>, failure: Option<string>)

  function StatusCode(r: StatusResponse): nat
  {
    if r.JobNotFound? then 404 else 200
  }

  /** The status response for one stored job: `results` only when it
      completed, `error` (here `failure`) only when it failed with a
      non-empty message. */
  function SnapshotOf(jobId: string, job: Job): (r: StatusResponse)
    ensures r.Snapshot? && r.jobId == jobId && r.status == job.status
    ensures r.results.Some? <==> job.status == Completed && job.results.Some?
    ensures r.failure.Some? <==> job.status == Failed && job.error.Some? && job.error.value != ""
    ensures r.results.Some? ==> r.results == job.results
    ensures r.failure.Some? ==> r.failure == job.error
  {
    Snapshot(jobId, job.status, job.url, job.pages, job.format, job.output,
             if job.status == Completed && job.results.Some? then job.results else None,
             if job.status == Failed && job.error.Some? && job.error.value != "" then job.error else None)
  }

  /** One entry of `list_jobs`. */
  datatype JobSummary = JobSummary(jobId: string, status: Status, url: Value, pages: Value)

  // ------------------------------------------------------------ controller

  /** `ScrapingController`: the job table (with its insertion order, which
      `list_jobs` shows) and the counter. */
  class ScrapingController {
    var activeJobs: map<string, Job>
    var jobOrder: seq<string>
    var jobCounter: nat

    /** Job n is `job_n`, the jobs are stored in the order they were
        created, and every stored job is well formed. */
    ghost predicate Valid()
      reads this
    {
      && |jobOrder| == jobCounter
      && (forall i :: 0 <= i < |jobOrder| ==> jobOrder[i] == JobId(i + 1))
      && (forall id :: id in activeJobs <==> id in jobOrder)
      && (forall i :: 0 <= i < |jobOrder| ==> jobOrder[i] in activeJobs)
      && (forall id :: id in activeJobs ==> WellFormed(activeJobs[id]))
    }

    /** `ScrapingController.__init__`. */
    constructor ()
      ensures Valid()
      ensures activeJobs == map[] && jobOrder == [] && jobCounter == 0
    {
      activeJobs, jobOrder, jobCounter := map[], [], 0;
    }

    /** The next id is not in the table yet. */
    lemma NextIdIsFresh()
      requires Valid()
      ensures JobId(jobCounter + 1) !in activeJobs
    {
      if JobId(jobCounter + 1) in activeJobs {
        var i :| 0 <= i < |jobOrder| && jobOrder[i] == JobId(jobCounter + 1);
        JobIdInjective(i + 1, jobCounter + 1);
      }
    }

    /** `trigger_scraping`. A rejected request changes nothing; an accepted
        one adds exactly one pending job under a fresh id. */
    method TriggerScraping(params: map<string, Value>) returns (r: TriggerResponse)
      requires Valid()
      modifies this
      ensures Valid()
      ensures var v := ValidateTrigger(params);
              && (v.Invalid? ==>
                    && r == Rejected(v.error, v.message)
                    && activeJobs == old(activeJobs) && jobOrder == old(jobOrder) && jobCounter == old(jobCounter))
              && (v.Valid? ==>
                    && jobCounter == old(jobCounter) + 1
                    && r == Started(JobId(jobCounter), v.url, v.pages, v.format, v.output)
                    && JobId(jobCounter) !in old(activeJobs)
                    && activeJobs == old(activeJobs)[JobId(jobCounter) := PendingJob(v)]
                    && jobOrder == old(jobOrder) + [JobId(jobCounter)])
    {
      var v := ValidateTrigger(params);
      if v.Invalid? {
        return Rejected(v.error, v.message);
      }
      NextIdIsFresh();
      jobCounter := jobCounter + 1;
      var jobId := JobId(jobCounter);
      activeJobs := activeJobs[jobId := PendingJob(v)];
      jobOrder := jobOrder + [jobId];
      r := Started(jobId, v.url, v.pages, v.format, v.output);
    }

    /** The first statement of `_run_scraping`: the job is `running`. */
    method StartRun(jobId: string)
      requires Valid() && jobId in activeJobs && activeJobs[jobId].status == Pending
      modifies this
      ensures Valid()
      ensures activeJobs == old(activeJobs)[jobId := old(activeJobs)[jobId].(status := Running)]
      ensures jobOrder == old(jobOrder) && jobCounter == old(jobCounter)
    {
      activeJobs := activeJobs[jobId := activeJobs[jobId].(status := Running)];
    }

    /** Stores a new version of one job; nothing else changes. */
    method SetJob(jobId: string, job: Job)
      requires Valid() && jobId in activeJobs && WellFormed(job)
      modifies this
      ensures Valid()
      ensures activeJobs == old(activeJobs)[jobId := job]
      ensures jobOrder == old(jobOrder) && jobCounter == old(jobCounter)
    {
      activeJobs := activeJobs[jobId := job];
    }

    /** The rest of `_run_scraping`. A run that saved its files asks the
        API's repository to reload; `repo` is null when that import fails,
        which is only logged. */
    method FinishRun(jobId: string, crawl: CrawlOutcome, io: PipelineIo,
                     repo: BookRepository.BookRepository?, saved: BookRepository.DataSource)
      requires Valid() && jobId in activeJobs && activeJobs[jobId].status == Running
      modifies this, repo
      ensures Valid()
      ensures activeJobs == old(activeJobs)[jobId := Finished(old(activeJobs)[jobId], crawl, io)]
      ensures jobOrder == old(jobOrder) && jobCounter == old(jobCounter)
      ensures repo != null && SavedFilesOf(activeJobs[jobId]) ==> repo.booksCache == Some(BookRepository.LoadedBooks(saved))
      ensures repo != null && !SavedFilesOf(activeJobs[jobId]) ==> repo.booksCache == old(repo.booksCache)
    {
      var job := activeJobs[jobId];
      FinishedIsTerminal(job, crawl, io);
      if crawl.CrawlRaised? {
        SetJob(jobId, job.(status := Failed, error := Some(crawl.message)));
        return;
      }
      var books := crawl.books;
      if books == [] {
        SetJob(jobId, job.(status := Completed, results := Some(NoBooksFound)));
        return;
      }
      if io.mkdir.Some? {
        SetJob(jobId, job.(status := Failed, error := Some(io.mkdir.value)));
        return;
      }
      SaveAndReport(jobId, books, io, repo, saved);
    }

    /** The part of `_run_scraping` after the output directory exists:
        clean, save (json first), report, complete, reload. */
    method SaveAndReport(jobId: string, books: seq<Record>, io: PipelineIo,
                         repo: BookRepository.BookRepository?, saved: BookRepository.DataSource)
      requires Valid() && jobId in activeJobs && activeJobs[jobId].status == Running
      requires books != [] && io.mkdir.None?
      modifies this, repo
      ensures Valid()
      ensures activeJobs == old(activeJobs)[jobId := Finished(old(activeJobs)[jobId], Crawled(books), io)]
      ensures jobOrder == old(jobOrder) && jobCounter == old(jobCounter)
      ensures repo != null && SavedFilesOf(activeJobs[jobId]) ==> repo.booksCache == Some(BookRepository.LoadedBooks(saved))
      ensures repo != null && !SavedFilesOf(activeJobs[jobId]) ==> repo.booksCache == old(repo.booksCache)
    {
      var job := activeJobs[jobId];
      var cleaned := DataProcessor.CleanData(books);
      var savedFiles: seq<string> := [];
      if WantsJson(job.format) {
        if io.json.SaveRaised? {
          SetJob(jobId, job.(status := Failed, error := Some(io.json.message)));
          return;
        }
        savedFiles := savedFiles + [io.json.path];
      }
      if WantsCsv(job.format) {
        if io.csv.SaveRaised? {
          SetJob(jobId, job.(status := Failed, error := Some(io.csv.message)));
          return;
        }
        savedFiles := savedFiles + [io.csv.path];
      }
      assert savedFiles == SavedFiles(job.format, io);
      var report := DataProcessor.GenerateReport(cleaned);
      assert Finished(job, Crawled(books), io) == CompletedRun(job, books, io);
      SetJob(jobId, job.(status := Completed, results := Some(Saved(|cleaned|, savedFiles, report))));
      if repo != null {
        repo.Reload(saved);
      }
    }

    /** `_run_scraping` on a freshly triggered job. */
    method RunScraping(jobId: string, crawl: CrawlOutcome, io: PipelineIo,
                       repo: BookRepository.BookRepository?, saved: BookRepository.DataSource)
      requires Valid() && jobId in activeJobs && activeJobs[jobId].status == Pending
      modifies this, repo
      ensures Valid()
      ensures activeJobs == old(activeJobs)[jobId := Finished(old(activeJobs)[jobId].(status := Running), crawl, io)]
      ensures jobOrder == old(jobOrder) && jobCounter == old(jobCounter)
      ensures repo != null && SavedFilesOf(activeJobs[jobId]) ==> repo.booksCache == Some(BookRepository.LoadedBooks(saved))
      ensures repo != null && !SavedFilesOf(activeJobs[jobId]) ==> repo.booksCache == old(repo.booksCache)
    {
      StartRun(jobId);
      FinishRun(jobId, crawl, io, repo, saved);
    }

    /** `get_job_status`. */
    function GetJobStatus(jobId: string): (r: StatusResponse)
      reads this
      ensures r.JobNotFound? <==> jobId !in activeJobs
      ensures r.JobNotFound? ==> r.error == "Job not found" && r.message == "Job \"" + jobId + "\" does not exist"
      ensures r.Snapshot? ==> r == SnapshotOf(jobId, activeJobs[jobId])
    {
      if jobId !in activeJobs then JobNotFound("Job not found", "Job \"" + jobId + "\" does not exist")
      else SnapshotOf(jobId, activeJobs[jobId])
    }

    /** `list_jobs`: one entry per stored job, in creation order. */
    method ListJobs() returns (jobs: seq<JobSummary>, total: nat)
      requires Valid()
      ensures total == |jobs| == |jobOrder| == jobCounter
      ensures forall i :: 0 <= i < |jobs| ==>
                && jobs[i].jobId == jobOrder[i] == JobId(i + 1)
                && jobs[i].status == activeJobs[jobOrder[i]].status
                && jobs[i].url == activeJobs[jobOrder[i]].url
                && jobs[i].pages == activeJobs[jobOrder[i]].pages
    {
      jobs := [];
      for i := 0 to |jobOrder|
        invariant |jobs| == i
        invariant forall k :: 0 <= k < i ==>
                    && jobs[k].jobId == jobOrder[k]
                    && jobs[k].status == activeJobs[jobOrder[k]].status
                    && jobs[k].url == activeJobs[jobOrder[k]].url
                    && jobs[k].pages == activeJobs[jobOrder[k]].pages
      {
        var id := jobOrder[i];
        var job := activeJobs[id];
        jobs := jobs + [JobSummary(id, job.status, job.url, job.pages)];
      }
      total := |jobs|;
    }
  }

  /** A trigger followed by its worker: the job the trigger created ends
      completed or failed, and nothing else in the table changes. */
  method TriggerThenRun(params: map<string, Value>, crawl: CrawlOutcome, io: PipelineIo)
    returns (trigger: TriggerResponse, status: StatusResponse)
    ensures ValidateTrigger(params).Invalid? ==> trigger.Rejected?
    ensures ValidateTrigger(params).Valid? ==>
              && trigger == Started(JobId(1), ValidateTrigger(params).url, ValidateTrigger(params).pages,
                                    ValidateTrigger(params).format, ValidateTrigger(params).output)
              && status.Snapshot?
              && (status.status == Completed || status.status == Failed)
  {
    var controller := new ScrapingController();
    trigger := controller.TriggerScraping(params);
    if trigger.Rejected? {
      status := controller.GetJobStatus("job_1");
      return;
    }
    var v := ValidateTrigger(params);
    FinishedIsTerminal(PendingJob(v).(status := Running), crawl, io);
    controller.RunScraping(trigger.jobId, crawl, io, null, BookRepository.Missing);
    status := controller.GetJobStatus(trigger.jobId);
  }
}
