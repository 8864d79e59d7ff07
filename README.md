# YT-Download-NG: job table, profile listing and command-line logic

This project models the deterministic core of YT-Download-NG, a YouTube Music
downloader. The model is written in Dafny and proves properties of it. The
system has two programs:

- a web backend (`web-backend/src/main.rs`). It keeps a table of download
  jobs, runs `python ytdl.py download <url> -p <profile>` for each job, and
  records the outcome in the job's status, progress and log. It also parses
  the output of `python ytdl.py profiles` into a list of profile names, and
  remembers the process id of the token server it started.
- a command-line wrapper (`ytdl.py`). It repairs profile configurations,
  lists the profiles, reads a list of URLs for a batch and counts its
  outcomes, retries a single download, and dispatches on its command line.

The model has five files:

- `options.dfy` (module `Options`): `Option` and `Result`.
- `text.dfy` (module `Text`): the string operations both programs rely on.
  These are `str::replace`/`str.replace`, `contains`/`in`,
  `str::trim`/`str.strip` with each language's notion of whitespace,
  `str::lines`, lines written by Python's `print`, decimal formatting of an
  integer, and `sorted` on strings (code-point order).
- `jobs.dfy` (module `Jobs`): the backend.
  - `AppState` is a class whose `jobs` map and `poServerPid` field are
    updated in place.
  - `run_download` is split into its two critical sections, `BeginRun` and
    `FinishRun`. Each is proved against a function of the old job
    (`Started`, `Finished`).
  - Log lines are appended by loops that are proved against `OutcomeLogs`.
- `cli.dfy` (module `Cli`): the wrapper.
  - The configuration rewrite edits the dictionary step by step and is
    proved against `FixedConfig`.
  - Profiles are gathered with append loops, then sorted.
  - The URL list is read by a loop proved against `UrlEntries`.
  - The batch loop is proved against `TallyFrom`, and the retry loop has a
    full statement of its attempts.
  - `main`'s branching is the function `ParseArgv`.
- `interop.dfy` (module `ProfileInterop`): how the two programs fit.
  - What the backend's parser reads off the wrapper's listing is exactly the
    main profiles followed by the nested ones, provided every profile name
    is printable: one line, no escape character, no check mark, and no
    leading or trailing whitespace.
  - The command the backend runs for a job reaches `download_single` with
    the job's URL and profile.

Everything outside these cores comes in as a value:
- a child process's exit code and output;
- a parsed JSON configuration;
- the lines of a URL list;
- the stems of a directory listing;
- a fresh job id and the current time.

## Model

| member | source | states |
|---|---|---|
| Jobs.LifecycleFollowsEdges | web-backend/src/main.rs:304-370 | A pending job goes to Running and then to Completed exactly when the child exited with 0, otherwise to Failed. Its log only grows. Progress becomes 100 on success and is kept otherwise. No other field changes. |
| Jobs.Started | web-backend/src/main.rs:305-311 | The job is Running, and its log is the old log followed by exactly one line: "Starting download: " and the URL. No other field changes. |
| Jobs.Finished | web-backend/src/main.rs:319-367 | The job is Completed exactly when the child exited with 0, and Failed otherwise. Progress becomes 100 on success and is kept otherwise. The new log is the old log followed by the outcome's lines. No other field changes. |
| Jobs.OutcomeLogs | web-backend/src/main.rs:322-367 | Every outcome adds at least one line. A command that could not be run adds only "Failed to execute command: " followed by the error. |
| Jobs.OutcomeTellsSuccess | web-backend/src/main.rs:323-366 | The first added line is "Download completed successfully" exactly when the child exited with 0. |
| Jobs.SuccessLogsShape | web-backend/src/main.rs:323-342 | On success the log gains "Download completed successfully", then every stdout line behind "[stdout] ", then every stderr line behind "[stderr] ", in order, and nothing else. |
| Jobs.FailureLogsShape | web-backend/src/main.rs:344-362 | On a non-zero exit the log gains the exit-code line. Then come the first min(10, n) stderr lines behind "Error: " and the first min(5, m) stdout lines behind "Output: ". That is at most 16 lines. |
| Jobs.ExitCodeLineReadsBack | web-backend/src/main.rs:346 | The exit-code line is the fixed text followed by a decimal numeral. That numeral reads back as the exit code, or -1 when the child had none. |
| Jobs.PushLines | web-backend/src/main.rs:331-333 | Pushing each line with a prefix leaves the old log followed by every line, prefixed, in order. |
| Jobs.PushCompletion | web-backend/src/main.rs:323-342 | The success branch with its `!is_empty()` guards appends exactly the success lines. |
| Jobs.PushFailure | web-backend/src/main.rs:344-362 | The failed-exit branch with its guards and `take(10)` / `take(5)` appends exactly the failure lines. |
| Jobs.ParseProfileLines | web-backend/src/main.rs:136-149 | The parser yields at most one name per line of output. |
| Jobs.ParsedProfilesAreClean | web-backend/src/main.rs:136-149 | Every parsed name is free of check marks and has no whitespace at either end. |
| Jobs.CleanProfileLine | web-backend/src/main.rs:139-147 | A cleaned line holds no check mark, has no whitespace at either end, and is no longer than the line it came from. |
| Jobs.ParseProfileLinesConcat | web-backend/src/main.rs:136-149 | The parser works line by line: parsing `a + b` gives the names of `a` followed by those of `b`. |
| Jobs.ParseProfileLine | web-backend/src/main.rs:137-146 | A single line gives its cleaned text if it contains a check mark, and nothing otherwise. |
| Jobs.ListProfilesResponse | web-backend/src/main.rs:128-160 | Success comes exactly when the child exited with 0, and then carries the parsed names. Otherwise the response is the error "Failed to list profiles" with no data. |
| Jobs.AppState.constructor | web-backend/src/main.rs:77-80 | The initial state has no jobs and no token-server pid. |
| Jobs.AppState.StartDownload | web-backend/src/main.rs:165-198 | Inserts a Pending job under the new id. It has progress 0, empty logs, the request's URL, and the request's profile or "gytmdl". Every other entry and the pid are unchanged. The response carries the id. |
| Jobs.AppState.BeginRun | web-backend/src/main.rs:305-311 | The job becomes `Started`: Running, with exactly one line "Starting download: " + url appended. A missing id changes nothing. |
| Jobs.AppState.FinishRun | web-backend/src/main.rs:319-370 | The job becomes `Finished` for the outcome, and its old log is a prefix of the new one. A missing id changes nothing. The pid is unchanged. |
| Jobs.AppState.RunDownload | web-backend/src/main.rs:304-370 | The whole run: the new log is the old log, the start line, then the outcome's lines. Other entries and a missing id are untouched. |
| Jobs.AppState.GetJob | web-backend/src/main.rs:211-229 | Success exactly when the id is stored, returning that job unchanged. Otherwise "Job not found" with no data. |
| Jobs.AppState.ListJobs | web-backend/src/main.rs:200-209 | Lists every stored job exactly once: the same count, the same set of jobs, and no id twice. |
| Jobs.AppState.ServerStatus | web-backend/src/main.rs:231-240 | Reports running exactly when a pid has been recorded. |
| Jobs.AppState.StartPoServer | web-backend/src/main.rs:290-302 | Records the pid when the spawn yields one. A spawn with no pid gives "Failed to get process ID", and a failed spawn gives its error; both keep the old pid. Jobs are untouched. |
| Jobs.AppState.StartServer | web-backend/src/main.rs:242-255 | "Server started" when a pid was recorded. A spawn with no pid gives a failed response carrying "Failed to get process ID"; a failed spawn gives one carrying the spawn's own error text. The old pid is kept on failure, jobs are untouched, and the table stays keyed by id. |
| Text.Lines | web-backend/src/main.rs:331 | `str::lines` gives no lines for empty text, and no line contains a line feed. |
| Text.LinesOfJoin | ytdl.py:186-195 | Splitting what `print` wrote gives the printed lines back when none holds a line feed or ends in a carriage return. |
| Text.ReplaceAbsent | web-backend/src/main.rs:142-144 | Replacing a pattern that does not occur changes nothing. |
| Text.RemoveCharLeavesNone | web-backend/src/main.rs:144 | Removing a character removes every occurrence of it. |
| Text.TrimSpec | web-backend/src/main.rs:145 | Trimming leaves a trimmed, contiguous run of the text, with only whitespace cut from either side. |
| Text.TrimPadded | web-backend/src/main.rs:145 | Trimming whitespace followed by a trimmed text gives that text. |
| Text.IntToDecimalRoundTrip | web-backend/src/main.rs:346 | The decimal form of any integer is non-empty digits, possibly after a leading minus sign, and parses back to that integer. |
| Text.Sort | ytdl.py:178 | `sorted` returns a sorted permutation of its input. |
| Text.SortedUnique | ytdl.py:178 | Two sorted arrangements of the same multiset of strings are equal. |
| Cli.FixConfigIfNeeded | ytdl.py:215-256 | Nothing happens and the result is False when the file cannot be loaded. A backup is attempted exactly when `create_backup` holds and a trigger holds. The result is True exactly when the file loaded, some rule fired, none raised and the write succeeded; the file then holds `FixedConfig`. |
| Cli.TemplateStepOf | ytdl.py:238-246 | The template is rewritten exactly when it is a string that mentions `{date:%Y}`, and the rewrite is never longer than the template. Only a value that is not a string can make the rule raise. |
| Cli.FixedConfig | ytdl.py:232-246 | The rewrite adds no key, and afterwards the download mode is not `aria2c`. |
| Cli.FixedConfigKeepsOtherKeys | ytdl.py:232-246 | Keys other than `download_mode` and `template_folder` keep their presence and their values. |
| Cli.FixedConfigDropsAria | ytdl.py:232-235 | An `aria2c` download mode is gone afterwards. Any other download mode stays. |
| Cli.FixedConfigTemplate | ytdl.py:238-246 | A string template that mentions `{date:%Y}` becomes the template with `' [{date:%Y}]'` and then `'[{date:%Y}]'` removed. Any other string template is kept. |
| Cli.FixedConfigIdleWhenNothingFires | ytdl.py:221-256 | When neither rule fires and the template is left alone, the configuration is unchanged. |
| Cli.DropDatePartShortens | ytdl.py:242 | Removing the date parts never lengthens the template. |
| Cli.UnbracketedTokenStaysFixable | ytdl.py:240-246 | A string template that holds `{date:%Y}` but never `[{date:%Y}]` counts as rewritten, yet the rewrite gives back the same template. |
| Cli.UnbracketedTemplateFixedForever | ytdl.py:232-256 | With such a template a rule fires, so a call whose write succeeds reports a fix. The template survives the rewrite unchanged, the rule fires again on the rewritten configuration, and a second rewrite changes nothing. |
| Cli.FixableCount | ytdl.py:540-567 | The count of fixable files is at most the number of files, and it is zero exactly when no file is fixable. |
| Cli.FixAllProfiles | ytdl.py:540-567 | `fix-all` counts exactly the files `fix_config_if_needed` reports fixed, and exits with 0. |
| Cli.GetAvailableProfiles | ytdl.py:165-178 | The result is sorted and is a permutation of the top-level stems plus the nested stems behind "profiles/". |
| Cli.ProfilesIndependentOfOrder | ytdl.py:178 | The result does not depend on the order the directories were listed in. |
| Cli.Group | ytdl.py:186-194 | Each group holds only names with (nested) or without (main) a '/'. |
| Cli.GroupsPartition | ytdl.py:186-194 | The main and the nested group together hold every profile exactly once. |
| Cli.InItsGroup | ytdl.py:188-194 | Every profile is in the group that its '/' selects. |
| Cli.ProfileLine | ytdl.py:190 | A profile line carries the check mark and ends with the profile name, after a fixed prefix of 13 characters. |
| Cli.ProfileLines | ytdl.py:188-190 | A loop over profiles prints one line per profile, in order. Each line holds the check mark and ends with its profile's name after the 13-character prefix. |
| Cli.ProfilesListing | ytdl.py:186-195 | The listing has one line per profile plus seven others, and it starts and ends with a blank line. |
| Cli.EveryProfileListed | ytdl.py:186-195 | Every profile found is printed as a profile line of the listing. |
| Cli.UrlEntriesAreUrlLines | ytdl.py:358-364 | Every entry is a stripped line that is non-empty and does not start with '#', paired with its own 1-based line number. |
| Cli.UrlEntriesFrom | ytdl.py:360-364 | The lines from a given index on yield at most one entry each. |
| Cli.UrlEntries | ytdl.py:358-368 | A list file yields at most one entry per line, and no entry at all exactly when none of its lines, stripped, is a URL line. |
| Cli.UrlEntriesInFileOrder | ytdl.py:358-364 | Entries keep file order, with strictly increasing line numbers. |
| Cli.UrlEntriesListEveryUrl | ytdl.py:358-364 | No line whose stripped form is a URL line is skipped. |
| Cli.ParseUrlList | ytdl.py:358-364 | The reading loop produces exactly `UrlEntries`. |
| Cli.TallyFrom | ytdl.py:379-403 | Successes plus failures never exceed the number of entries left to run. |
| Cli.TallyComplete | ytdl.py:379-403 | With `continue_on_error` and no interrupt, successes plus failures equal the number of entries. |
| Cli.TallyStopsAtFirstFailure | ytdl.py:392-403 | Without `continue_on_error` at most one entry fails. |
| Cli.TallyFailedFromBatch | ytdl.py:388-401 | Every failed entry is one of the batch's entries. |
| Cli.RunBatch | ytdl.py:379-403 | The counting loop with its early breaks yields exactly `TallyFrom`. `fail_count` is the number of failed URLs. |
| Cli.DownloadBatch | ytdl.py:336-418 | A missing list gives 1 and an empty list gives 0. Otherwise the result is 0 exactly when no entry failed. |
| Cli.DownloadSingle | ytdl.py:258-333 | A missing profile or interpreter gives 1 before any run. Otherwise there are 1 to max_retries+1 runs, and all but the last exited non-zero. The result is the last run's code, and a non-zero result means every run was used. |
| Cli.Lower | ytdl.py:496 | The lowered command word has the same length and holds no ASCII capital. Each character is either kept or becomes a small ASCII letter. |
| Cli.LowerIdempotent | ytdl.py:496 | Lower-casing an already lower-cased word changes nothing. |
| Cli.CommandIgnoresCase | ytdl.py:496-538 | Lower-casing the command word first does not change the outcome. |
| Cli.MissingArgumentFails | ytdl.py:502-522 | `download` or `batch` without its argument is a usage error with exit code 1. |
| Cli.ProfileSelection | ytdl.py:508-530 | `argv[2]` is the URL or file. The profile is `argv[4]` when `argv[3]` is `-p`/`--profile` and a fifth word exists, otherwise "gytmdl". |
| Cli.ParseArgv | ytdl.py:491-604 | Help without a command word. A download or batch takes `argv[2]` and either the default profile or `argv[4]`. A missing argument is reported exactly for a bare `download` or `batch`. An unknown command, echoed lower-cased, is reported exactly when the lowered word is none of the commands. |
| Cli.FixedExitCode | ytdl.py:491-604 | The exit code is 1 exactly for a missing argument or an unknown command. It is left to the run exactly for a download, a batch or the server. Every other branch exits with 0. |
| ProfileInterop.CleanProfileLineOfPrinted | web-backend/src/main.rs:140-146 | Cleaning a line printed by `list_profiles` gives back the profile name. This holds for a printable name: one line, no escape character, no check mark, and no leading or trailing whitespace. |
| ProfileInterop.SharedMarks | web-backend/src/main.rs:138-144 | The check mark and the green and reset codes that the backend looks for and strips are the ones `list_profiles` prints. |
| ProfileInterop.ProfileLineShape | ytdl.py:190 | A printed profile line is one plain line and carries the check mark. This holds for a printable name: one line, no escape character, no check mark, and no leading or trailing whitespace. |
| ProfileInterop.ParseProfileLinesOfPrinted | web-backend/src/main.rs:136-149 | The parser reads the names back from a run of printed profile lines, in order. This holds when every name is printable: one line, no escape character, no check mark, and no leading or trailing whitespace. |
| ProfileInterop.ParseListing | ytdl.py:181-196 | From the whole listing the parser reads the main profiles, then the nested ones. The headings and blank lines yield nothing. This holds when every name is printable: one line, no escape character, no check mark, and no leading or trailing whitespace. |
| ProfileInterop.ProfilesRoundTrip | web-backend/src/main.rs:128-150 | `GET /api/profiles` over a successful `ytdl.py profiles` run reports exactly the main profiles followed by the nested profiles, when every name is on one line, holds no escape character and no check mark, and has no leading or trailing whitespace. |
| ProfileInterop.DownloadCommandReachesDownload | web-backend/src/main.rs:313-314 | The command line a job runs is parsed as a download of the job's URL with the job's profile. |

## Left out

- Child processes are inputs:
  - `Command::output()` and `Command::spawn()` in the backend;
  - `subprocess.run` and `Popen` in the wrapper;
  - the check that the interpreter can import the downloader.
- The wrapper's `psutil` scan, its HTTP health probe and its sleeps are not modelled. These are probes of the operating system and the network.
- `start_server` in `ytdl.py` is not modelled. `download_single` and `download_batch` call it, but its result does not affect theirs.
- File and directory work is not modelled: reading and writing JSON, globbing, copying backups, and changing directory. The parsed configuration, the lines of a URL list and the stems of a directory listing are inputs. JSON numbers are whole numbers; float values are not modelled. `json.dump`'s layout and key order are not modelled.
- A URL list's lines are given already split. Python's newline translation is not modelled.
- `from_utf8_lossy` decoding is not modelled. A child's output arrives as text.
- Locks, tasks, the websocket loop, routing, CORS and static serving are not modelled. The job table is one sequential state.
- `RunDownload` runs its two critical sections back to back. Another handler could run between them in the source; the model does not capture this.
- `Uuid::new_v4` and `Utc::now` are not modelled: the caller passes the id and the time. `JobId` is a `nat` and `Timestamp` an `int`.
- `progress` is a whole number. The source's `f32` only ever holds 0.0 and 100.0.
- Exit codes are unbounded integers. Rust's `i32` and the process ids' `u32` width are not modelled.
- Coloured log output, the help text, the dependency check (`check`) and the embedded HTML page are not modelled. Only the lines `list_profiles` prints are modelled, because the backend parses them.
- `fixes_applied` in `fix_config_if_needed` is not modelled, because nothing reads it.
- `Cli.Lower`: lowers ASCII capitals and the Kelvin sign (to `k`) only. U+0130 lowers in Python to `i` followed by the combining dot U+0307; no command word holds that dot, so the command chosen is the same, but an unknown command's echoed word keeps U+0130 where Python would print `i` and the dot. The echoed word may likewise differ from Python's for other non-ASCII capitals.
- `Cli.MentionsDate`: models `'{date:%Y}' in str(value)` as "some string or key inside the value contains the token". Python's printed form of a list or dictionary quotes and escapes its strings, but the token contains no quote or backslash, so the two agree on every value `json.load` can return. A nested object is a dictionary (`Cli.Json.JObject` holds a map), so a repeated key in the file keeps only its last value, as `json.load` does.
- `Cli.DownloadSingle`: the automatic fix of the configuration and the choice between a virtual environment and the system interpreter are inputs, not steps.
- `ProfileInterop.ProfilesRoundTrip`: holds only for printable profile names, as do `ProfileInterop.CleanProfileLineOfPrinted`, `ProfileInterop.ProfileLineShape`, `ProfileInterop.ParseProfileLinesOfPrinted` and `ProfileInterop.ParseListing`. The backend trims each line and strips the colour codes and every check mark, so a stem such as ` x.json`'s ` x` comes back as `x`, and a name holding a newline, an escape character or a check mark comes back altered or split. The listing is promised for every name; the round trip is not.
- `Jobs.AppState.StartPoServer`: nothing checks for a server that is already running. Every start replaces the recorded pid, as in the source.
