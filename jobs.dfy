/**
 * The web backend (web-backend/src/main.rs): a table of download jobs keyed
 * by id, the two updates `run_download` makes to a job around the child
 * process, the read-only lookups behind `/api/jobs` and `/api/jobs/:id`,
 * the parser behind `/api/profiles`, and the recorded process id of the
 * token server.
 *
 * The table is one sequential state: the read/write locks, the spawned
 * tasks and the websocket pushes around it are not modelled. A child
 * process's outcome arrives as an `ExecResult` value.
 */
module Jobs {
  import opened Options
  import opened Text

  /** `Uuid`, drawn by `Uuid::new_v4` and passed in by the caller. */
  type JobId = nat

  /** `chrono::DateTime<Utc>`, read from the clock and passed in by the caller. */
  type Timestamp = int

  datatype JobStatus = Pending | Running | Completed | Failed

  /**
   * A job record. `progress` is an `f32` in the source, which only ever
   * stores 0.0 and 100.0 in it; here it is the whole percentage.
   */
  datatype DownloadJob = DownloadJob(
    id: JobId,
    url: string,
    profile: string,
    status: JobStatus,
    progress: int,
    createdAt: Timestamp,
    logs: seq<string>)

  /** Body of `POST /api/download`. */
  datatype DownloadRequest = DownloadRequest(url: string, profile: Option<string>)

  /** The JSON envelope of every handler. */
  datatype ApiResponse<T> = ApiResponse(success: bool, data: Option<T>, error: Option<string>)

  /**
   * What `Command::output()` gave back: the child ran, with its exit code
   * (`None` when a signal ended it) and its standard streams decoded to
   * text; or it could not be started, with the error's display text.
   */
  datatype ExecResult =
    | Executed(code: Option<int>, stdout: string, stderr: string)
    | NotExecuted(message: string)
  {
    /** `output.status.success()`: the child exited with code 0. */
    predicate Succeeded() {
      Executed? && code == Some(0)
    }
  }

  /** What `Command::spawn()` and `Child::id()` gave back for the token server. */
  datatype SpawnResult = Spawned(pid: Option<nat>) | SpawnFailed(message: string)

  const DefaultProfile: string := "gytmdl"
  const CheckMark: char := '\U{2713}'
  const AnsiGreen: string := "\U{1B}[32m"
  const AnsiReset: string := "\U{1B}[0m"

  /** The allowed moves of a job's status. */
  predicate CanAdvance(from: JobStatus, to: JobStatus) {
    (from == Pending && to == Running)
    || (from == Running && (to == Completed || to == Failed))
  }

  // ---------------------------------------------------------------------
  // The job updates made by run_download, as functions of the old job
  // ---------------------------------------------------------------------

  /** Iterator `take(n)`: the first `n` items, or all when there are fewer. */
  function Take<T>(s: seq<T>, n: nat): seq<T> {
    if |s| <= n then s else s[..n]
  }

  /**
   * First update: the job is running and its log has gained one line
   * saying which URL; nothing else about the job changes.
   */
  function Started(job: DownloadJob, url: string): (r: DownloadJob)
    ensures r.status == Running
    ensures job.logs <= r.logs && |r.logs| == |job.logs| + 1
    ensures r.logs[|job.logs|] == "Starting download: " + url
    ensures r.(status := job.status, logs := job.logs) == job
  {
    job.(status := Running, logs := job.logs + ["Starting download: " + url])
  }

  /** The line that reports a failed exit; a signal (no code) is reported as -1. */
  function ExitCodeLine(code: Option<int>): string {
    "Download failed with exit code: " + IntToDecimal(code.GetOr(-1))
  }

  /**
   * The lines the second update appends, by outcome. There is always a
   * first line, and a command that did not run leaves just the one line
   * with its error.
   */
  function OutcomeLogs(result: ExecResult): (r: seq<string>)
    ensures r != []
    ensures result.NotExecuted? ==> r == ["Failed to execute command: " + result.message]
  {
    match result
    case Executed(code, out, err) =>
      if code == Some(0) then
        ["Download completed successfully"]
        + Prefixed("[stdout] ", Lines(out)) + Prefixed("[stderr] ", Lines(err))
      else
        [ExitCodeLine(code)]
        + Prefixed("Error: ", Take(Lines(err), 10)) + Prefixed("Output: ", Take(Lines(out), 5))
    case NotExecuted(message) =>
      ["Failed to execute command: " + message]
  }

  /** The first line tells success apart: only a zero exit opens with the completion line. */
  lemma OutcomeTellsSuccess(result: ExecResult)
    ensures OutcomeLogs(result)[0] == "Download completed successfully" <==> result.Succeeded()
  {
    match result
    case Executed(code, _, _) =>
      if code != Some(0) {
        assert ExitCodeLine(code)[9] == 'f';
      }
    case NotExecuted(message) =>
      assert ("Failed to execute command: " + message)[0] == 'F';
  }

  /**
   * Second update: completed at 100% on success, failed with the progress
   * kept otherwise; the log keeps its old lines and gains the outcome's.
   */
  function Finished(job: DownloadJob, result: ExecResult): (r: DownloadJob)
    ensures r.status == Completed <==> result.Succeeded()
    ensures r.status == Completed || r.status == Failed
    ensures r.progress == if result.Succeeded() then 100 else job.progress
    ensures job.logs <= r.logs && r.logs[|job.logs|..] == OutcomeLogs(result)
    ensures r.(status := job.status, progress := job.progress, logs := job.logs) == job
  {
    if result.Succeeded() then
      job.(status := Completed, progress := 100, logs := job.logs + OutcomeLogs(result))
    else
      job.(status := Failed, logs := job.logs + OutcomeLogs(result))
  }

  /** A job that is pending moves along the allowed edges and only gains log lines. */
  lemma LifecycleFollowsEdges(job: DownloadJob, url: string, result: ExecResult)
    requires job.status == Pending
    ensures var running := Started(job, url);
      var done := Finished(running, result);
      && CanAdvance(job.status, running.status) && CanAdvance(running.status, done.status)
      && job.logs <= running.logs <= done.logs
      && (done.status == Completed <==> result.Succeeded())
      && (done.progress == if result.Succeeded() then 100 else job.progress)
      && job.(status := done.status, progress := done.progress, logs := done.logs) == done
  {
  }

  /** On success the log gains the marker line, then every output line, then every error line. */
  lemma SuccessLogsShape(out: string, err: string)
    ensures var logs := OutcomeLogs(Executed(Some(0), out, err));
      var o, e := Lines(out), Lines(err);
      && |logs| == 1 + |o| + |e|
      && logs[0] == "Download completed successfully"
      && (forall k :: 0 <= k < |o| ==> logs[1 + k] == "[stdout] " + o[k])
      && (forall k :: 0 <= k < |e| ==> logs[1 + |o| + k] == "[stderr] " + e[k])
  {
  }

  /** A head line, then the first `n1` of `e` behind `p1`, then the first `n2` of `o` behind `p2`. */
  lemma TakenLinesShape(logs: seq<string>, h: string, p1: string, e: seq<string>, n1: nat, p2: string, o: seq<string>, n2: nat)
    requires logs == [h] + Prefixed(p1, Take(e, n1)) + Prefixed(p2, Take(o, n2))
    ensures var ne := if |e| < n1 then |e| else n1;
      var no := if |o| < n2 then |o| else n2;
      && |logs| == 1 + ne + no
      && logs[0] == h
      && (forall k :: 0 <= k < ne ==> logs[1 + k] == p1 + e[k])
      && (forall k :: 0 <= k < no ==> logs[1 + ne + k] == p2 + o[k])
  {
    var te, to := Take(e, n1), Take(o, n2);
    var pe, po := Prefixed(p1, te), Prefixed(p2, to);
    forall k | 0 <= k < |te| ensures logs[1 + k] == p1 + e[k] {
      assert logs[1 + k] == pe[k] && te[k] == e[k];
    }
    forall k | 0 <= k < |to| ensures logs[1 + |te| + k] == p2 + o[k] {
      assert logs[1 + |te| + k] == po[k] && to[k] == o[k];
    }
  }

  /**
   * On a failed exit the log gains the exit-code line, then at most ten
   * error lines, then at most five output lines, each the first ones of
   * their stream; at most sixteen lines in all.
   */
  lemma FailureLogsShape(code: Option<int>, out: string, err: string)
    requires code != Some(0)
    ensures var logs := OutcomeLogs(Executed(code, out, err));
      var o, e := Lines(out), Lines(err);
      var ne := if |e| < 10 then |e| else 10;
      var no := if |o| < 5 then |o| else 5;
      && |logs| == 1 + ne + no <= 16
      && logs[0] == ExitCodeLine(code)
      && (forall k :: 0 <= k < ne ==> logs[1 + k] == "Error: " + e[k])
      && (forall k :: 0 <= k < no ==> logs[1 + ne + k] == "Output: " + o[k])
  {
    FailureLogs(code, out, err);
    TakenLinesShape(OutcomeLogs(Executed(code, out, err)), ExitCodeLine(code), "Error: ", Lines(err), 10, "Output: ", Lines(out), 5);
  }

  /** The failed-exit lines as three pieces. */
  lemma FailureLogs(code: Option<int>, out: string, err: string)
    requires code != Some(0)
    ensures OutcomeLogs(Executed(code, out, err))
         == [ExitCodeLine(code)] + Prefixed("Error: ", Take(Lines(err), 10)) + Prefixed("Output: ", Take(Lines(out), 5))
  {
  }

  /** The exit-code line names the code, and -1 when the child had none. */
  lemma ExitCodeLineReadsBack(code: Option<int>)
    ensures var line := ExitCodeLine(code);
      var prefix := "Download failed with exit code: ";
      var digits := line[|prefix|..];
      && StartsWith(line, prefix)
      && digits != [] && (forall k :: 0 < k < |digits| ==> IsDigit(digits[k]))
      && (IsDigit(digits[0]) || digits[0] == '-')
      && ParseDecimal(digits) == if code.Some? then code.value else -1
  {
    var prefix := "Download failed with exit code: ";
    IntToDecimalRoundTrip(code.GetOr(-1));
    assert ExitCodeLine(code)[|prefix|..] == IntToDecimal(code.GetOr(-1));
  }

  /** `job.logs.push(...)` once per line, in order. */
  method PushLines(logs: seq<string>, prefix: string, lines: seq<string>) returns (r: seq<string>)
    ensures r == logs + Prefixed(prefix, lines)
  {
    r := logs;
    for i := 0 to |lines|
      invariant |r| == |logs| + i && r[..|logs|] == logs
      invariant forall k :: 0 <= k < i ==> r[|logs| + k] == prefix + lines[k]
    {
      r := r + [prefix + lines[i]];
    }
  }

  /** `logs + h + x + y` regrouped as the old log followed by what was appended. */
  lemma AppendedThree(logs: seq<string>, h: seq<string>, x: seq<string>, y: seq<string>)
    ensures logs + h + x + y == logs + (h + x + y)
  {
    ConcatAssociative(logs, h, x);
    ConcatAssociative(logs, h + x, y);
  }

  /** The success branch: the marker line, then each output line, then each error line. */
  method PushCompletion(logs: seq<string>, out: string, err: string) returns (r: seq<string>)
    ensures r == logs + OutcomeLogs(Executed(Some(0), out, err))
  {
    ghost var h := ["Download completed successfully"];
    ghost var o := Prefixed("[stdout] ", Lines(out));
    ghost var e := Prefixed("[stderr] ", Lines(err));
    assert OutcomeLogs(Executed(Some(0), out, err)) == h + o + e;
    r := logs + ["Download completed successfully"];
    if out != [] {
      r := PushLines(r, "[stdout] ", Lines(out));
    } else {
      assert o == [];
      ConcatEmpty(logs + h);
    }
    assert r == logs + h + o;
    if err != [] {
      r := PushLines(r, "[stderr] ", Lines(err));
    } else {
      assert e == [];
      ConcatEmpty(logs + h + o);
    }
    assert r == logs + h + o + e;
    AppendedThree(logs, h, o, e);
  }

  /** The failed-exit branch: the exit-code line, then up to ten error lines, then up to five output lines. */
  method PushFailure(logs: seq<string>, code: Option<int>, out: string, err: string) returns (r: seq<string>)
    requires code != Some(0)
    ensures r == logs + OutcomeLogs(Executed(code, out, err))
  {
    ghost var h := [ExitCodeLine(code)];
    ghost var e := Prefixed("Error: ", Take(Lines(err), 10));
    ghost var o := Prefixed("Output: ", Take(Lines(out), 5));
    assert OutcomeLogs(Executed(code, out, err)) == h + e + o;
    r := logs + [ExitCodeLine(code)];
    if err != [] {
      r := PushLines(r, "Error: ", Take(Lines(err), 10));
    } else {
      assert e == [];
      ConcatEmpty(logs + h);
    }
    assert r == logs + h + e;
    if out != [] {
      r := PushLines(r, "Output: ", Take(Lines(out), 5));
    } else {
      assert o == [];
      ConcatEmpty(logs + h + e);
    }
    assert r == logs + h + e + o;
    AppendedThree(logs, h, e, o);
  }

  // ---------------------------------------------------------------------
  // The profile list parser
  // ---------------------------------------------------------------------

  /**
   * One kept line with the colour codes and the check mark removed, then
   * trimmed: a name with no check mark and no surrounding whitespace, no
   * longer than the line.
   */
  function CleanProfileLine(line: string): (r: string)
    ensures IsCleanName(r)
    ensures |r| <= |line|
  {
    CleanedLine(line);
    Trim(Replace(Replace(Replace(line, AnsiGreen, []), AnsiReset, []), [CheckMark], []), IsRustWhitespace)
  }

  /** Each step of the cleaning keeps the line as short, and the last two leave no mark and no padding. */
  lemma CleanedLine(line: string)
    ensures var plain := Replace(Replace(line, AnsiGreen, []), AnsiReset, []);
      var r := Trim(Replace(plain, [CheckMark], []), IsRustWhitespace);
      IsCleanName(r) && |r| <= |line|
  {
    var plain := Replace(Replace(line, AnsiGreen, []), AnsiReset, []);
    var unmarked := Replace(plain, [CheckMark], []);
    RemoveShortens(line, AnsiGreen);
    RemoveShortens(Replace(line, AnsiGreen, []), AnsiReset);
    RemoveShortens(plain, [CheckMark]);
    RemoveCharLeavesNone(plain, CheckMark);
    TrimSpec(unmarked, IsRustWhitespace);
    TrimKeepsCharacters(unmarked, IsRustWhitespace);
  }

  /** What one line contributes: its cleaned text when it carries a check mark, else nothing. */
  function KeptProfile(line: string): seq<string> {
    if Contains(line, [CheckMark]) then [CleanProfileLine(line)] else []
  }

  /** The lines that carry a check mark, cleaned, in their order. */
  function ParseProfileLines(lines: seq<string>): (r: seq<string>)
    ensures |r| <= |lines|
  {
    if lines == [] then [] else KeptProfile(lines[0]) + ParseProfileLines(lines[1..])
  }

  /** A profile name as the parser hands it out: no check mark, no surrounding whitespace. */
  predicate IsCleanName(name: string) {
    CheckMark !in name && IsTrimmed(name, IsRustWhitespace)
  }

  /** Every parsed name is free of check marks and of surrounding whitespace. */
  lemma {:induction false} ParsedProfilesAreClean(lines: seq<string>)
    ensures forall name :: name in ParseProfileLines(lines) ==> IsCleanName(name)
    decreases |lines|
  {
    if lines != [] {
      ParsedProfilesAreClean(lines[1..]);
      var head := KeptProfile(lines[0]);
      var rest := ParseProfileLines(lines[1..]);
      assert ParseProfileLines(lines) == head + rest;
    }
  }

  /** The parser works line by line: the result for `a + b` is the result for `a`, then for `b`. */
  lemma {:induction false} ParseProfileLinesConcat(a: seq<string>, b: seq<string>)
    ensures ParseProfileLines(a + b) == ParseProfileLines(a) + ParseProfileLines(b)
    decreases |a|
  {
    if a == [] {
      assert a + b == b;
    } else {
      assert (a + b)[1..] == a[1..] + b;
      ParseProfileLinesConcat(a[1..], b);
    }
  }

  /** A single line is kept, cleaned, exactly when it contains the check mark. */
  lemma ParseProfileLine(line: string)
    ensures ParseProfileLines([line]) == if CheckMark in line then [CleanProfileLine(line)] else []
  {
    ContainsChar(line, CheckMark);
    assert [line][1..] == [];
  }

  /** `GET /api/profiles`: parse the output of `python ytdl.py profiles` when it exits with 0. */
  function ListProfilesResponse(output: ExecResult): (r: ApiResponse<seq<string>>)
    ensures r.success <==> output.Succeeded()
    ensures r.success ==> r.data == Some(ParseProfileLines(Lines(output.stdout))) && r.error == None
    ensures !r.success ==> r.data == None && r.error == Some("Failed to list profiles")
  {
    if output.Succeeded() then
      ApiResponse(true, Some(ParseProfileLines(Lines(output.stdout))), None)
    else
      ApiResponse(false, None, Some("Failed to list profiles"))
  }

  // ---------------------------------------------------------------------
  // The application state
  // ---------------------------------------------------------------------

  /** Every job is stored under its own id. */
  predicate KeyedById(jobs: map<JobId, DownloadJob>) {
    forall id :: id in jobs ==> jobs[id].id == id
  }

  /** `list` holds the jobs stored under `listed`, each once. */
  predicate ListedOnce(jobs: map<JobId, DownloadJob>, list: seq<DownloadJob>, listed: set<JobId>) {
    && listed <= jobs.Keys
    && |list| == |listed|
    && (forall k :: 0 <= k < |list| ==> list[k].id in listed && list[k] == jobs[list[k].id])
    && (forall id :: id in listed ==> jobs[id] in list)
    && (forall a, b :: 0 <= a < b < |list| ==> list[a].id != list[b].id)
  }

  /** Listing one more of the jobs still to list keeps every listed job listed once. */
  lemma ListOneMore(jobs: map<JobId, DownloadJob>, list: seq<DownloadJob>, remaining: set<JobId>, id: JobId)
    requires KeyedById(jobs) && ListedOnce(jobs, list, jobs.Keys - remaining)
    requires id in remaining && remaining <= jobs.Keys
    ensures ListedOnce(jobs, list + [jobs[id]], jobs.Keys - (remaining - {id}))
  {
    var listed := jobs.Keys - remaining;
    var list', listed' := list + [jobs[id]], listed + {id};
    assert jobs.Keys - (remaining - {id}) == listed';
    assert |listed'| == |listed| + 1;
    forall k | 0 <= k < |list'| ensures list'[k].id in listed' && list'[k] == jobs[list'[k].id] {
      if k < |list| {
        assert list'[k] == list[k];
      }
    }
    forall i | i in listed' ensures jobs[i] in list' {
      if i != id {
        var k :| 0 <= k < |list| && list[k] == jobs[i];
        assert list'[k] == jobs[i];
      } else {
        assert list'[|list|] == jobs[id];
      }
    }
    forall a, b | 0 <= a < b < |list'| ensures list'[a].id != list'[b].id {
      assert list'[a] == list[a];
      if b < |list| {
        assert list'[b] == list[b];
      }
    }
  }

  /** Once every id is listed, the list holds exactly the stored jobs. */
  lemma ListedAll(jobs: map<JobId, DownloadJob>, list: seq<DownloadJob>)
    requires ListedOnce(jobs, list, jobs.Keys)
    ensures |list| == |jobs|
    ensures forall j :: j in list <==> j in jobs.Values
  {
    assert |jobs.Keys| == |jobs|;
    forall j | j in jobs.Values ensures j in list {
      var id :| id in jobs && jobs[id] == j;
    }
  }


  /** `AppState`: the job table and the token server's process id, updated in place. */
  class AppState {
    var jobs: map<JobId, DownloadJob>
    var poServerPid: Option<nat>

    /** Every job is stored under its own id. */
    ghost predicate Valid()
      reads this
    {
      KeyedById(jobs)
    }

    /** The state `main` builds before serving: no jobs, no token server. */
    constructor ()
      ensures Valid() && jobs == map[] && poServerPid == None
    {
      jobs := map[];
      poServerPid := None;
    }

    /**
     * `POST /api/download`: a fresh pending job under `jobId` with the
     * requested or the default profile; the rest of the table is as it was.
     * The task that then runs the download is `RunDownload`.
     */
    method StartDownload(req: DownloadRequest, jobId: JobId, now: Timestamp) returns (r: ApiResponse<JobId>)
      requires Valid()
      modifies this
      ensures Valid()
      ensures jobs.Keys == old(jobs).Keys + {jobId}
      ensures jobs[jobId] == DownloadJob(jobId, req.url, req.profile.GetOr(DefaultProfile), Pending, 0, now, [])
      ensures forall id :: id in old(jobs) && id != jobId ==> jobs[id] == old(jobs)[id]
      ensures poServerPid == old(poServerPid)
      ensures r == ApiResponse(true, Some(jobId), None)
    {
      var profile := req.profile.GetOr(DefaultProfile);
      var job := DownloadJob(jobId, req.url, profile, Pending, 0, now, []);
      jobs := jobs[jobId := job];
      r := ApiResponse(true, Some(jobId), None);
    }

    /** First critical section of `run_download`: mark the job running and log the URL; a missing job is left alone. */
    method BeginRun(jobId: JobId, url: string)
      requires Valid()
      modifies this
      ensures Valid()
      ensures jobId in old(jobs) ==> jobs == old(jobs)[jobId := Started(old(jobs)[jobId], url)]
      ensures jobId !in old(jobs) ==> jobs == old(jobs)
      ensures jobId in jobs ==> old(jobs)[jobId].logs <= jobs[jobId].logs
      ensures poServerPid == old(poServerPid)
    {
      if jobId in jobs {
        var job := jobs[jobId];
        job := job.(status := Running);
        job := job.(logs := job.logs + ["Starting download: " + url]);
        jobs := jobs[jobId := job];
      }
    }

    /**
     * Second critical section of `run_download`: record the child's outcome
     * in the job's status, progress and log; a missing job is left alone.
     */
    method FinishRun(jobId: JobId, output: ExecResult)
      requires Valid()
      modifies this
      ensures Valid()
      ensures jobId in old(jobs) ==> jobs == old(jobs)[jobId := Finished(old(jobs)[jobId], output)]
      ensures jobId !in old(jobs) ==> jobs == old(jobs)
      ensures jobId in jobs ==> old(jobs)[jobId].logs <= jobs[jobId].logs
      ensures poServerPid == old(poServerPid)
    {
      if jobId in jobs {
        var job := jobs[jobId];
        match output {
          case Executed(code, out, err) =>
            if code == Some(0) {
              job := job.(status := Completed, progress := 100);
              var logs := PushCompletion(job.logs, out, err);
              job := job.(logs := logs);
            } else {
              job := job.(status := Failed);
              var logs := PushFailure(job.logs, code, out, err);
              job := job.(logs := logs);
            }
          case NotExecuted(message) =>
            job := job.(status := Failed);
            job := job.(logs := job.logs + ["Failed to execute command: " + message]);
        }
        jobs := jobs[jobId := job];
      }
    }

    /**
     * `run_download` with nothing in between its two critical sections:
     * the job ends completed or failed and its log is the old log plus the
     * start line plus the outcome's lines.
     */
    method RunDownload(jobId: JobId, url: string, output: ExecResult)
      requires Valid()
      modifies this
      ensures Valid()
      ensures jobId in old(jobs) ==> jobs == old(jobs)[jobId := Finished(Started(old(jobs)[jobId], url), output)]
      ensures jobId in old(jobs) ==>
        jobs[jobId].logs == old(jobs)[jobId].logs + ["Starting download: " + url] + OutcomeLogs(output)
      ensures jobId !in old(jobs) ==> jobs == old(jobs)
      ensures poServerPid == old(poServerPid)
    {
      BeginRun(jobId, url);
      FinishRun(jobId, output);
    }

    /** `GET /api/jobs/:id`: the stored job, or "Job not found". */
    function GetJob(jobId: JobId): (r: ApiResponse<DownloadJob>)
      reads this
      ensures r.success <==> jobId in jobs
      ensures jobId in jobs ==> r.data == Some(jobs[jobId]) && r.error == None
      ensures jobId !in jobs ==> r.data == None && r.error == Some("Job not found")
    {
      if jobId in jobs then ApiResponse(true, Some(jobs[jobId]), None)
      else ApiResponse(false, None, Some("Job not found"))
    }

    /**
     * `GET /api/jobs`: every stored job exactly once, in the order the
     * table's iterator yields them (here: any order).
     */
    method ListJobs() returns (r: ApiResponse<seq<DownloadJob>>)
      requires Valid()
      ensures r.success && r.error == None && r.data.Some?
      ensures |r.data.value| == |jobs|
      ensures forall j :: j in r.data.value <==> j in jobs.Values
      ensures forall a, b :: 0 <= a < b < |r.data.value| ==> r.data.value[a].id != r.data.value[b].id
    {
      var table := jobs;
      var remaining := table.Keys;
      var list: seq<DownloadJob> := [];
      while remaining != {}
        invariant remaining <= table.Keys && ListedOnce(table, list, table.Keys - remaining)
        decreases remaining
      {
        var id :| id in remaining;
        ListOneMore(table, list, remaining, id);
        list := list + [table[id]];
        remaining := remaining - {id};
      }
      ListedAll(table, list);
      r := ApiResponse(true, Some(list), None);
    }

    /** `GET /api/server/status`: running exactly when a process id has been recorded. */
    function ServerStatus(): (r: ApiResponse<bool>)
      reads this
      ensures r.success && r.error == None
      ensures r.data == Some(poServerPid.Some?)
    {
      ApiResponse(true, Some(poServerPid != None), None)
    }

    /**
     * `start_po_server`: on a spawn that yields a process id, record it
     * (replacing any earlier one: nothing checks for a running server);
     * otherwise report the error and keep the old id.
     */
    method StartPoServer(spawn: SpawnResult) returns (r: Result<()>)
      requires Valid()
      modifies this
      ensures Valid()
      ensures jobs == old(jobs)
      ensures spawn.Spawned? && spawn.pid.Some? ==> r == Ok(()) && poServerPid == spawn.pid
      ensures spawn == Spawned(None) ==> r == Err("Failed to get process ID") && poServerPid == old(poServerPid)
      ensures spawn.SpawnFailed? ==> r == Err(spawn.message) && poServerPid == old(poServerPid)
    {
      match spawn {
        case SpawnFailed(message) =>
          r := Err(message);
        case Spawned(pid) =>
          if pid.None? {
            r := Err("Failed to get process ID");
          } else {
            poServerPid := pid;
            r := Ok(());
          }
      }
    }

    /** `POST /api/server/start`: the envelope around `StartPoServer`. */
    method StartServer(spawn: SpawnResult) returns (r: ApiResponse<string>)
      requires Valid()
      modifies this
      ensures Valid()
      ensures jobs == old(jobs)
      ensures spawn.Spawned? && spawn.pid.Some? ==>
        r == ApiResponse(true, Some("Server started"), None) && poServerPid == spawn.pid
      ensures spawn == Spawned(None) ==>
        r == ApiResponse(false, None, Some("Failed to get process ID")) && poServerPid == old(poServerPid)
      ensures spawn.SpawnFailed? ==>
        r == ApiResponse(false, None, Some(spawn.message)) && poServerPid == old(poServerPid)
    {
      var started := StartPoServer(spawn);
      match started {
        case Ok(_) => r := ApiResponse(true, Some("Server started"), None);
        case Err(e) => r := ApiResponse(false, None, Some(e));
      }
    }
  }
}
