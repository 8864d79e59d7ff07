/**
 * The command-line wrapper (ytdl.py): the configuration rewrite, the
 * profile listing, the URL-list parse and the tally of a batch, the retry
 * loop of a single download, and the parsing of the command line.
 *
 * Files, JSON parsing, child processes and the token server are outside:
 * what they yield (a parsed configuration, the lines of a file, the stems
 * of a directory listing, the exit code of each run) comes in as a value.
 */
module Cli {
  import opened Options
  import opened Text

  // ---------------------------------------------------------------------
  // Configuration rewrite (fix_config_if_needed)
  // ---------------------------------------------------------------------

  /**
   * A value as `json.load` gives it. A nested object is a dictionary, so
   * of repeated keys only the last one's value is kept, as `json.load`
   * does; numbers are whole numbers.
   */
  datatype Json =
    | JNull
    | JBool(b: bool)
    | JNumber(n: int)
    | JString(s: string)
    | JArray(items: seq<Json>)
    | JObject(members: map<string, Json>)

  /** A top-level configuration: the dictionary `json.load` read from a profile file. */
  type Config = map<string, Json>

  const DownloadModeKey: string := "download_mode"
  const TemplateFolderKey: string := "template_folder"
  const DateToken: string := "{date:%Y}"
  const SpacedDatePart: string := " [{date:%Y}]"
  const DatePart: string := "[{date:%Y}]"

  /** `config.get('download_mode') == 'aria2c'`. */
  predicate AriaMode(config: Config) {
    DownloadModeKey in config && config[DownloadModeKey] == JString("aria2c")
  }

  /**
   * `'{date:%Y}' in str(v)`. The token holds no quote and no backslash,
   * so it occurs in the printed form of a list or dictionary exactly when
   * it occurs in one of the strings (keys included) inside it; numbers,
   * booleans and `None` print without braces.
   */
  predicate MentionsDate(v: Json) {
    match v
    case JString(s) => Contains(s, DateToken)
    case JArray(items) => exists i :: 0 <= i < |items| && MentionsDate(items[i])
    case JObject(members) =>
      exists key :: key in members && (Contains(key, DateToken) || MentionsDate(members[key]))
    case _ => false
  }

  /** The condition under which a backup is made (the second operand of the `and` at ytdl.py:225-226). */
  predicate NeedsBackup(config: Config) {
    AriaMode(config) || (TemplateFolderKey in config && MentionsDate(config[TemplateFolderKey]))
  }

  /** What the second rule does to the value stored under `template_folder`. */
  datatype TemplateStep = Untouched | Rewritten(template: string) | Raises

  /** `template.replace(' [{date:%Y}]', '').replace('[{date:%Y}]', '')`. */
  function DropDatePart(template: string): string {
    Replace(Replace(template, SpacedDatePart, []), DatePart, [])
  }

  /**
   * The second rule on one value: a string holding the token is rewritten;
   * a list holding the token as an element or a dictionary holding it as a
   * key has no `replace`, and a number, boolean or `None` cannot be
   * searched with `in`; each of those raises.
   */
  function TemplateStepOf(v: Json): (r: TemplateStep)
    ensures r.Rewritten? <==> v.JString? && Contains(v.s, DateToken)
    ensures r.Rewritten? ==> |r.template| <= |v.s|
    ensures r.Raises? ==> !v.JString?
  {
    match v
    case JString(t) =>
      if Contains(t, DateToken) then DropDatePartShortens(t); Rewritten(DropDatePart(t)) else Untouched
    case JArray(items) => if JString(DateToken) in items then Raises else Untouched
    case JObject(members) => if DateToken in members then Raises else Untouched
    case _ => Raises
  }

  /** The second rule on a configuration. */
  function TemplateStepIn(config: Config): TemplateStep {
    if TemplateFolderKey in config then TemplateStepOf(config[TemplateFolderKey]) else Untouched
  }

  /**
   * The configuration after both rules, when neither raised: no key is
   * added, and the download mode is no longer `aria2c`.
   */
  function FixedConfig(config: Config): (r: Config)
    ensures r.Keys <= config.Keys
    ensures !AriaMode(r)
  {
    var afterMode := if AriaMode(config) then config - {DownloadModeKey} else config;
    match TemplateStepIn(config)
    case Rewritten(t) => afterMode[TemplateFolderKey := JString(t)]
    case _ => afterMode
  }

  /** Some rule fires and none raises: the call writes the file back. */
  predicate FixApplies(config: Config) {
    !TemplateStepIn(config).Raises? && (AriaMode(config) || TemplateStepIn(config).Rewritten?)
  }

  /**
   * What one call leaves behind: whether a backup was attempted, the
   * configuration written back (if any), and the returned flag.
   */
  datatype FixReport = FixReport(backupAttempted: bool, written: Option<Config>, fixed: bool)

  /**
   * `fix_config_if_needed` on the outcome of loading the file (`None`: it
   * could not be read, parsed, or is not a dictionary) and of writing it
   * back (`writeOk`). The dictionary is edited in place and written back
   * only when a rule fired; any exception turns into `False`.
   */
  method FixConfigIfNeeded(loaded: Option<Config>, createBackup: bool, writeOk: bool) returns (report: FixReport)
    ensures loaded.None? ==> report == FixReport(false, None, false)
    ensures loaded.Some? ==> report.backupAttempted == (createBackup && NeedsBackup(loaded.value))
    ensures report.fixed <==> report.written.Some?
    ensures report.fixed <==> loaded.Some? && writeOk && FixApplies(loaded.value)
    ensures report.fixed ==> report.written.value == FixedConfig(loaded.value)
  {
    if loaded.None? {
      return FixReport(false, None, false);
    }
    var config := loaded.value;
    var backup := createBackup && NeedsBackup(config);
    var fixed := false;
    if AriaMode(config) {
      config := config - {DownloadModeKey};
      fixed := true;
    }
    if TemplateFolderKey in config {
      match config[TemplateFolderKey] {
        case JString(template) =>
          if Contains(template, DateToken) {
            config := config[TemplateFolderKey := JString(DropDatePart(template))];
            fixed := true;
          }
        case JArray(items) =>
          if JString(DateToken) in items {
            return FixReport(backup, None, false);
          }
        case JObject(members) =>
          if DateToken in members {
            return FixReport(backup, None, false);
          }
        case _ =>
          return FixReport(backup, None, false);
      }
    }
    if fixed && writeOk {
      return FixReport(backup, Some(config), true);
    }
    return FixReport(backup, None, false);
  }

  /** The rewrite touches no key other than `download_mode` and `template_folder`. */
  lemma FixedConfigKeepsOtherKeys(config: Config, key: string)
    requires key != DownloadModeKey && key != TemplateFolderKey
    ensures key in FixedConfig(config) <==> key in config
    ensures key in config ==> FixedConfig(config)[key] == config[key]
  {
  }

  /** An `aria2c` download mode is gone afterwards; any other download mode stays. */
  lemma FixedConfigDropsAria(config: Config)
    ensures AriaMode(config) ==> DownloadModeKey !in FixedConfig(config)
    ensures !AriaMode(config) && DownloadModeKey in config ==>
      DownloadModeKey in FixedConfig(config) && FixedConfig(config)[DownloadModeKey] == config[DownloadModeKey]
  {
  }

  /**
   * A string template that mentions the token becomes the template with
   * `' [{date:%Y}]'` and then `'[{date:%Y}]'` cut out; a template without
   * it is untouched.
   */
  lemma FixedConfigTemplate(config: Config)
    requires TemplateFolderKey in config && config[TemplateFolderKey].JString?
    ensures var t := config[TemplateFolderKey].s;
      && TemplateFolderKey in FixedConfig(config)
      && FixedConfig(config)[TemplateFolderKey]
         == JString(if Contains(t, DateToken) then DropDatePart(t) else t)
  {
  }

  /** With neither rule firing, the configuration is as it was. */
  lemma FixedConfigIdleWhenNothingFires(config: Config)
    requires !AriaMode(config) && TemplateStepIn(config).Untouched?
    ensures FixedConfig(config) == config
  {
  }

  /** Cutting the bracketed parts never lengthens the template. */
  lemma DropDatePartShortens(t: string)
    ensures |DropDatePart(t)| <= |t|
  {
    RemoveShortens(t, SpacedDatePart);
    RemoveShortens(Replace(t, SpacedDatePart, []), DatePart);
  }

  /**
   * A template that holds the token but never inside brackets counts as
   * fixed although the rewrite leaves it as it is.
   */
  lemma UnbracketedTokenStaysFixable(t: string)
    requires Contains(t, DateToken) && !Contains(t, DatePart)
    ensures TemplateStepOf(JString(t)) == Rewritten(t)
  {
    assert SpacedDatePart == " " + DatePart;
    ContainsTail(t, " ", DatePart);
    ReplaceAbsent(t, SpacedDatePart, []);
    ReplaceAbsent(t, DatePart, []);
  }

  /**
   * So a configuration with such a template is rewritten to itself as far
   * as the template goes, and every later call fires and writes it back again.
   */
  lemma UnbracketedTemplateFixedForever(config: Config)
    requires TemplateFolderKey in config && config[TemplateFolderKey].JString?
    requires var t := config[TemplateFolderKey].s; Contains(t, DateToken) && !Contains(t, DatePart)
    ensures FixApplies(config)
    ensures TemplateFolderKey in FixedConfig(config) && FixedConfig(config)[TemplateFolderKey] == config[TemplateFolderKey]
    ensures FixApplies(FixedConfig(config))
    ensures FixedConfig(FixedConfig(config)) == FixedConfig(config)
  {
    var t := config[TemplateFolderKey].s;
    UnbracketedTokenStaysFixable(t);
    var fixed := FixedConfig(config);
    assert fixed[TemplateFolderKey] == JString(t);
    assert TemplateStepIn(fixed) == Rewritten(t);
    assert fixed[TemplateFolderKey := JString(t)] == fixed;
  }

  /**
   * A configuration file as `fix-all` meets it: what loading it gave and
   * whether writing it back would succeed.
   */
  datatype ConfigFile = ConfigFile(loaded: Option<Config>, writeOk: bool)

  /** `fix_config_if_needed` returns `True` for this file. */
  predicate Fixable(file: ConfigFile) {
    file.loaded.Some? && file.writeOk && FixApplies(file.loaded.value)
  }

  /** How many of the files a call would fix. */
  function FixableCount(files: seq<ConfigFile>): (n: nat)
    ensures n <= |files|
    ensures n == 0 <==> forall k :: 0 <= k < |files| ==> !Fixable(files[k])
  {
    if files == [] then 0
    else FixableCount(files[..|files| - 1]) + (if Fixable(files[|files| - 1]) then 1 else 0)
  }

  /**
   * The `fix-all` command over the main configurations followed by the
   * nested ones, each with a backup: it counts the files fixed and always
   * exits with 0.
   */
  method FixAllProfiles(files: seq<ConfigFile>) returns (fixedCount: nat, code: int)
    ensures fixedCount == FixableCount(files)
    ensures code == 0
  {
    fixedCount := 0;
    for i := 0 to |files|
      invariant fixedCount == FixableCount(files[..i])
    {
      var report := FixConfigIfNeeded(files[i].loaded, true, files[i].writeOk);
      assert files[..i + 1][..i] == files[..i];
      if report.fixed {
        fixedCount := fixedCount + 1;
      }
    }
    assert files[..|files|] == files;
    code := 0;
  }

  // ---------------------------------------------------------------------
  // Profiles (get_available_profiles, list_profiles)
  // ---------------------------------------------------------------------

  const NestedPrefix: string := "profiles/"
  const CheckMark: char := '\U{2713}'
  const AnsiGreen: string := "\U{1B}[32m"
  const AnsiReset: string := "\U{1B}[0m"
  const AnsiCyan: string := "\U{1B}[36m"
  const AnsiYellow: string := "\U{1B}[33m"

  /**
   * `get_available_profiles`: the stems of `config` (`*.json`) as they are and
   * the stems of `config/profiles` (`*.json`) (when that directory exists)
   * behind `profiles/`, collected in globbing order and then sorted.
   */
  method GetAvailableProfiles(topStems: seq<string>, nestedStems: Option<seq<string>>) returns (profiles: seq<string>)
    ensures Sorted(profiles)
    ensures multiset(profiles) == multiset(topStems + Prefixed(NestedPrefix, nestedStems.GetOr([])))
  {
    var found: seq<string> := [];
    for i := 0 to |topStems|
      invariant found == topStems[..i]
    {
      found := found + [topStems[i]];
    }
    assert topStems[..|topStems|] == topStems;
    if nestedStems.Some? {
      var nested := nestedStems.value;
      for i := 0 to |nested|
        invariant found == topStems + Prefixed(NestedPrefix, nested[..i])
      {
        found := found + [NestedPrefix + nested[i]];
      }
      assert nested[..|nested|] == nested;
    }
    profiles := Sort(found);
  }

  /** The result of `sorted` depends only on which names were found, not on the globbing order. */
  lemma ProfilesIndependentOfOrder(a: seq<string>, b: seq<string>)
    requires multiset(a) == multiset(b)
    ensures Sort(a) == Sort(b)
  {
    SortedUnique(Sort(a), Sort(b));
  }

  /** `'/' in profile`: a profile from the nested directory. */
  predicate IsNested(profile: string) {
    '/' in profile
  }

  /** The profiles, in their order, that are (`nested`) or are not in the nested directory. */
  function Group(profiles: seq<string>, nested: bool): (r: seq<string>)
    ensures forall k :: 0 <= k < |r| ==> IsNested(r[k]) == nested
  {
    if profiles == [] then []
    else (if IsNested(profiles[0]) == nested then [profiles[0]] else []) + Group(profiles[1..], nested)
  }

  /** The two groups split the profiles: together they hold each one exactly once. */
  lemma {:induction false} GroupsPartition(profiles: seq<string>)
    ensures multiset(Group(profiles, false) + Group(profiles, true)) == multiset(profiles)
    decreases |profiles|
  {
    if profiles != [] {
      GroupsPartition(profiles[1..]);
      assert profiles == [profiles[0]] + profiles[1..];
    }
  }

  /** A listed profile line: indented, a green check mark, then the name, which ends the line. */
  function ProfileLine(profile: string): (r: string)
    ensures CheckMark in r
    ensures |r| == |profile| + 13 && r[13..] == profile
  {
    "  " + AnsiGreen + [CheckMark] + AnsiReset + " " + profile
  }

  /** One profile line per profile, in order: each holds the check mark and ends with its name. */
  function ProfileLines(profiles: seq<string>): (r: seq<string>)
    ensures |r| == |profiles|
    ensures forall k :: 0 <= k < |r| ==> CheckMark in r[k] && |r[k]| >= 13 && r[k][13..] == profiles[k]
  {
    seq(|profiles|, k requires 0 <= k < |profiles| => ProfileLine(profiles[k]))
  }

  /**
   * The lines `list_profiles` prints: a blank line and the title, a blank
   * line and the main heading, the main profiles, a blank line and the
   * nested heading, the nested profiles, and a final blank line.
   */
  function ProfilesListing(profiles: seq<string>): (r: seq<string>)
    ensures |r| == |profiles| + 7
    ensures r[0] == "" && r[|r| - 1] == ""
  {
    var main, nested := Group(profiles, false), Group(profiles, true);
    GroupsPartition(profiles);
    assert |multiset(main + nested)| == |main + nested| == |main| + |nested|;
    ["", AnsiCyan + "Available Profiles:" + AnsiReset, "", AnsiYellow + "Main Configs:" + AnsiReset]
    + ProfileLines(Group(profiles, false))
    + ["", AnsiYellow + "Audiophile Profiles:" + AnsiReset]
    + ProfileLines(Group(profiles, true))
    + [""]
  }

  /** Each profile lands in the group its `/` decides. */
  lemma {:induction false} InItsGroup(profiles: seq<string>, k: nat)
    requires k < |profiles|
    ensures profiles[k] in Group(profiles, IsNested(profiles[k]))
    decreases k
  {
    if k > 0 {
      InItsGroup(profiles[1..], k - 1);
      assert profiles[1..][k - 1] == profiles[k];
    }
  }

  /** Every profile found is printed on a line of its own, in one group or the other. */
  lemma EveryProfileListed(profiles: seq<string>, k: nat)
    requires k < |profiles|
    ensures ProfileLine(profiles[k]) in ProfilesListing(profiles)
  {
    var p := profiles[k];
    var group := Group(profiles, IsNested(p));
    InItsGroup(profiles, k);
    var j :| 0 <= j < |group| && group[j] == p;
    assert ProfileLine(p) in ProfileLines(group) by {
      assert ProfileLines(group)[j] == ProfileLine(p);
    }
  }

  // ---------------------------------------------------------------------
  // Batch download (download_batch)
  // ---------------------------------------------------------------------

  /** A URL to download, with its 1-based line number in the list file. */
  type UrlEntry = (nat, string)

  /** `str.strip()` with no argument. */
  function PyStrip(s: string): string {
    Trim(s, IsPythonWhitespace)
  }

  /** A stripped line that names a URL: not blank, not a `#` comment. */
  predicate IsUrlLine(line: string) {
    line != [] && !StartsWith(line, "#")
  }

  /** What line `j` (0-based) of a list file contributes: its entry, numbered from 1, if it names a URL. */
  function LineEntry(lines: seq<string>, j: nat): seq<UrlEntry>
    requires j < |lines|
  {
    var line := PyStrip(lines[j]);
    if IsUrlLine(line) then [(j + 1, line)] else []
  }

  /** The entries of lines `i..` of a list file, in file order. */
  function UrlEntriesFrom(lines: seq<string>, i: nat): (r: seq<UrlEntry>)
    ensures i <= |lines| ==> |r| <= |lines| - i
    decreases |lines| - i
  {
    if i >= |lines| then [] else LineEntry(lines, i) + UrlEntriesFrom(lines, i + 1)
  }

  /** The entries read from a list file: at most one per line, and none exactly when no line names a URL. */
  function UrlEntries(lines: seq<string>): (r: seq<UrlEntry>)
    ensures |r| <= |lines|
    ensures r == [] <==> forall j :: 0 <= j < |lines| ==> !IsUrlLine(PyStrip(lines[j]))
  {
    NoEntriesWithoutUrls(lines);
    UrlEntriesFrom(lines, 0)
  }

  /** The entries of a list file are empty exactly when none of its lines names a URL. */
  lemma NoEntriesWithoutUrls(lines: seq<string>)
    ensures UrlEntriesFrom(lines, 0) == [] <==> forall j :: 0 <= j < |lines| ==> !IsUrlLine(PyStrip(lines[j]))
  {
    var r := UrlEntriesFrom(lines, 0);
    UrlEntriesAreUrlLines(lines, 0);
    UrlEntriesListEveryUrl(lines, 0);
    if r != [] {
      var j := r[0].0 - 1;
      assert 0 <= j < |lines| && IsUrlLine(PyStrip(lines[j]));
    } else {
      assert ListsEveryUrl(lines, r, 0);
    }
  }

  /** Each entry is a URL line of `lines` after line `i`, stripped, under its own number. */
  predicate EntriesFromLines(lines: seq<string>, entries: seq<UrlEntry>, i: nat) {
    forall k :: 0 <= k < |entries| ==>
      && i < entries[k].0 <= |lines|
      && entries[k].1 == PyStrip(lines[entries[k].0 - 1])
      && IsUrlLine(entries[k].1)
  }

  /** The entries are in file order, so no line is listed twice. */
  predicate InFileOrder(entries: seq<UrlEntry>) {
    forall a, b :: 0 <= a < b < |entries| ==> entries[a].0 < entries[b].0
  }

  /** Every URL line of `lines` from index `i` on is listed. */
  predicate ListsEveryUrl(lines: seq<string>, entries: seq<UrlEntry>, i: nat) {
    forall j :: i <= j < |lines| && IsUrlLine(PyStrip(lines[j])) ==>
      exists k :: 0 <= k < |entries| && entries[k].0 == j + 1
  }

  /** Each entry of lines `i..` is one of their URL lines, stripped, under its own number. */
  lemma {:induction false} UrlEntriesAreUrlLines(lines: seq<string>, i: nat)
    ensures EntriesFromLines(lines, UrlEntriesFrom(lines, i), i)
    decreases |lines| - i
  {
    if i < |lines| {
      UrlEntriesAreUrlLines(lines, i + 1);
      var head := LineEntry(lines, i);
      var rest := UrlEntriesFrom(lines, i + 1);
      var r := head + rest;
      assert r == UrlEntriesFrom(lines, i);
      forall k | 0 <= k < |r|
        ensures i < r[k].0 <= |lines| && r[k].1 == PyStrip(lines[r[k].0 - 1]) && IsUrlLine(r[k].1)
      {
        if k >= |head| {
          assert r[k] == rest[k - |head|];
        }
      }
    }
  }

  /** An entry numbered `n` or none, in front of later entries in file order, keeps file order. */
  lemma OrderedCons(head: seq<UrlEntry>, rest: seq<UrlEntry>, n: nat)
    requires forall k :: 0 <= k < |head| ==> head[k].0 == n
    requires |head| <= 1
    requires InFileOrder(rest) && forall k :: 0 <= k < |rest| ==> n < rest[k].0
    ensures InFileOrder(head + rest)
  {
    var r := head + rest;
    forall a, b | 0 <= a < b < |r| ensures r[a].0 < r[b].0 {
      assert r[b] == rest[b - |head|];
      if a >= |head| {
        assert r[a] == rest[a - |head|];
      }
    }
  }

  /** The entries come in file order. */
  lemma {:induction false} UrlEntriesInFileOrder(lines: seq<string>, i: nat)
    ensures InFileOrder(UrlEntriesFrom(lines, i))
    decreases |lines| - i
  {
    if i < |lines| {
      UrlEntriesInFileOrder(lines, i + 1);
      UrlEntriesAreUrlLines(lines, i + 1);
      var rest := UrlEntriesFrom(lines, i + 1);
      assert forall k :: 0 <= k < |rest| ==> i + 1 < rest[k].0;
      OrderedCons(LineEntry(lines, i), rest, i + 1);
    }
  }

  /** No URL line of lines `i..` is skipped. */
  lemma {:induction false} UrlEntriesListEveryUrl(lines: seq<string>, i: nat)
    ensures ListsEveryUrl(lines, UrlEntriesFrom(lines, i), i)
    decreases |lines| - i
  {
    if i < |lines| {
      UrlEntriesListEveryUrl(lines, i + 1);
      var head := LineEntry(lines, i);
      var rest := UrlEntriesFrom(lines, i + 1);
      var r := head + rest;
      assert r == UrlEntriesFrom(lines, i);
      forall j | i <= j < |lines| && IsUrlLine(PyStrip(lines[j]))
        ensures exists k :: 0 <= k < |r| && r[k].0 == j + 1
      {
        if j == i {
          assert r[0].0 == j + 1;
        } else {
          var k :| 0 <= k < |rest| && rest[k].0 == j + 1;
          assert r[|head| + k].0 == j + 1;
        }
      }
    }
  }

  /** The loop that reads the list file: `enumerate(f, 1)`, strip, skip blanks and comments. */
  method ParseUrlList(lines: seq<string>) returns (urls: seq<UrlEntry>)
    ensures urls == UrlEntries(lines)
  {
    urls := [];
    for i := 0 to |lines|
      invariant urls + UrlEntriesFrom(lines, i) == UrlEntries(lines)
    {
      ghost var before := urls;
      assert UrlEntriesFrom(lines, i) == LineEntry(lines, i) + UrlEntriesFrom(lines, i + 1);
      ConcatAssociative(urls, LineEntry(lines, i), UrlEntriesFrom(lines, i + 1));
      var line := PyStrip(lines[i]);
      if IsUrlLine(line) {
        urls := urls + [(i + 1, line)];
      }
      assert urls == before + LineEntry(lines, i);
    }
  }

  /** How one `download_single` call inside the batch ended. */
  datatype Attempt =
    | Exited(code: int)   // it returned this exit code
    | Raised              // it raised an exception other than KeyboardInterrupt
    | Interrupted         // the user pressed Ctrl-C

  /** The counters of a batch: successes, and the entries that failed, in order. */
  datatype Tally = Tally(succeeded: nat, failed: seq<UrlEntry>)

  /**
   * The tally of entries `i..` of a batch: a zero exit counts as a
   * success; another exit or an exception counts as a failure and ends the
   * batch unless `continueOnError`; an interrupt ends it uncounted.
   */
  function TallyFrom(urls: seq<UrlEntry>, outcome: nat -> Attempt, continueOnError: bool, i: nat): (r: Tally)
    ensures i <= |urls| ==> r.succeeded + |r.failed| <= |urls| - i
    decreases |urls| - i
  {
    if i >= |urls| then Tally(0, [])
    else
      match outcome(i)
      case Interrupted => Tally(0, [])
      case Exited(0) =>
        var rest := TallyFrom(urls, outcome, continueOnError, i + 1);
        rest.(succeeded := rest.succeeded + 1)
      case _ =>
        var rest := if continueOnError then TallyFrom(urls, outcome, continueOnError, i + 1) else Tally(0, []);
        Tally(rest.succeeded, [urls[i]] + rest.failed)
  }

  /** With `continueOnError` and no interrupt, every entry is counted once. */
  lemma {:induction false} TallyComplete(urls: seq<UrlEntry>, outcome: nat -> Attempt, i: nat)
    requires i <= |urls|
    requires forall j :: i <= j < |urls| ==> !outcome(j).Interrupted?
    ensures var t := TallyFrom(urls, outcome, true, i);
      t.succeeded + |t.failed| == |urls| - i
    decreases |urls| - i
  {
    if i < |urls| {
      TallyComplete(urls, outcome, i + 1);
    }
  }

  /** Without `continueOnError` the batch stops at its first failure. */
  lemma {:induction false} TallyStopsAtFirstFailure(urls: seq<UrlEntry>, outcome: nat -> Attempt, i: nat)
    ensures |TallyFrom(urls, outcome, false, i).failed| <= 1
    decreases |urls| - i
  {
    if i < |urls| {
      TallyStopsAtFirstFailure(urls, outcome, i + 1);
    }
  }

  /** Every failed entry is one of the batch's entries. */
  lemma {:induction false} TallyFailedFromBatch(urls: seq<UrlEntry>, outcome: nat -> Attempt, continueOnError: bool, i: nat)
    ensures forall e :: e in TallyFrom(urls, outcome, continueOnError, i).failed ==> e in urls[i..]
    decreases |urls| - i
  {
    if i < |urls| {
      TallyFailedFromBatch(urls, outcome, continueOnError, i + 1);
      assert urls[i..] == [urls[i]] + urls[i + 1..];
    }
  }

  /** Counts so far that, with the tally of entries `i..`, make the tally of the whole batch. */
  predicate CountedSoFar(urls: seq<UrlEntry>, outcome: nat -> Attempt, continueOnError: bool, i: nat,
                         succeeded: nat, failed: seq<UrlEntry>)
  {
    var rest := TallyFrom(urls, outcome, continueOnError, i);
    Tally(succeeded + rest.succeeded, failed + rest.failed) == TallyFrom(urls, outcome, continueOnError, 0)
  }

  /** The counting loop of `download_batch` over the parsed entries. */
  method RunBatch(urls: seq<UrlEntry>, outcome: nat -> Attempt, continueOnError: bool)
    returns (successCount: nat, failCount: nat, failedUrls: seq<UrlEntry>)
    ensures Tally(successCount, failedUrls) == TallyFrom(urls, outcome, continueOnError, 0)
    ensures failCount == |failedUrls|
  {
    successCount, failCount, failedUrls := 0, 0, [];
    var i := 0;
    var stopped := false;
    while i < |urls| && !stopped
      invariant 0 <= i <= |urls|
      invariant failCount == |failedUrls|
      invariant stopped ==> Tally(successCount, failedUrls) == TallyFrom(urls, outcome, continueOnError, 0)
      invariant !stopped ==> CountedSoFar(urls, outcome, continueOnError, i, successCount, failedUrls)
      decreases |urls| - i, !stopped
    {
      ghost var rest := TallyFrom(urls, outcome, continueOnError, i + 1);
      match outcome(i) {
        case Interrupted =>
          stopped := true;
          ConcatEmpty(failedUrls);
        case Exited(code) =>
          if code == 0 {
            successCount := successCount + 1;
          } else {
            ConcatAssociative(failedUrls, [urls[i]], rest.failed);
            ConcatAssociative(failedUrls, [urls[i]], []);
            failCount := failCount + 1;
            failedUrls := failedUrls + [urls[i]];
            if !continueOnError {
              stopped := true;
              ConcatEmpty(failedUrls);
            }
          }
        case Raised =>
          ConcatAssociative(failedUrls, [urls[i]], rest.failed);
          ConcatAssociative(failedUrls, [urls[i]], []);
          failCount := failCount + 1;
          failedUrls := failedUrls + [urls[i]];
          if !continueOnError {
            stopped := true;
            ConcatEmpty(failedUrls);
          }
      }
      i := i + 1;
    }
  }

  /**
   * `download_batch`: 1 when the list file is missing, 0 when it names no
   * URL, otherwise 0 exactly when no entry failed.
   */
  method DownloadBatch(listExists: bool, lines: seq<string>, outcome: nat -> Attempt, continueOnError: bool)
    returns (code: int)
    ensures !listExists ==> code == 1
    ensures listExists && UrlEntries(lines) == [] ==> code == 0
    ensures listExists && UrlEntries(lines) != [] ==>
      (code == 0 <==> TallyFrom(UrlEntries(lines), outcome, continueOnError, 0).failed == [])
    ensures code == 0 || code == 1
  {
    if !listExists {
      return 1;
    }
    var urls := ParseUrlList(lines);
    if urls == [] {
      return 0;
    }
    var successCount, failCount, failedUrls := RunBatch(urls, outcome, continueOnError);
    code := if failCount == 0 then 0 else 1;
  }

  // ---------------------------------------------------------------------
  // Single download (download_single)
  // ---------------------------------------------------------------------

  /**
   * `download_single` after its set-up: 1 without the profile's file or
   * without an interpreter that has the downloader; otherwise up to
   * `maxRetries + 1` runs, `run(j)` being the exit code of run `j`. It
   * returns 0 at the first run that exits with 0, else the last run's code.
   */
  method DownloadSingle(profileExists: bool, interpreterFound: bool, maxRetries: nat, run: nat -> int)
    returns (code: int, attempts: nat)
    ensures !(profileExists && interpreterFound) ==> code == 1 && attempts == 0
    ensures profileExists && interpreterFound ==>
      && 1 <= attempts <= maxRetries + 1
      && (forall j :: 0 <= j < attempts - 1 ==> run(j) != 0)
      && code == run(attempts - 1)
      && (code != 0 ==> attempts == maxRetries + 1)
  {
    if !profileExists || !interpreterFound {
      return 1, 0;
    }
    attempts := 0;
    var result := 0;
    for attempt := 0 to maxRetries + 1
      invariant attempts == attempt
      invariant forall j :: 0 <= j < attempt ==> run(j) != 0
      invariant attempt > 0 ==> result == run(attempt - 1)
    {
      result := run(attempt);
      attempts := attempts + 1;
      if result == 0 {
        return 0, attempts;
      }
    }
    code := result;
  }

  // ---------------------------------------------------------------------
  // Command line (main)
  // ---------------------------------------------------------------------

  /**
   * `str.lower()` on one character as far as the commands can tell: ASCII
   * capitals lower to ASCII letters and the Kelvin sign (U+212A) to `k`.
   * U+0130 also lowers to `i`, but followed by the combining dot U+0307,
   * which no command word holds, so it can never complete a command; it is
   * kept as it is here. Every other character lowers to no ASCII letter.
   */
  function LowerChar(c: char): char {
    if 'A' <= c <= 'Z' then (c as int + 32) as char
    else if c == '\U{212A}' then 'k'
    else c
  }

  /** Lowering leaves no ASCII capital, and every character is either kept or becomes a small ASCII letter. */
  function Lower(s: string): (r: string)
    ensures |r| == |s|
    ensures forall k :: 0 <= k < |r| ==> !('A' <= r[k] <= 'Z')
    ensures forall k :: 0 <= k < |r| ==> r[k] == s[k] || 'a' <= r[k] <= 'z'
  {
    seq(|s|, k requires 0 <= k < |s| => LowerChar(s[k]))
  }

  /** What `main` goes on to do. */
  datatype Invocation =
    | ShowHelp
    | Download(url: string, profile: string)
    | Batch(listFile: string, profile: string)
    | StartServer
    | ListProfiles
    | FixAll
    | Check
    | MissingArgument(message: string)
    | UnknownCommand(command: string)

  const DefaultProfile: string := "gytmdl"

  /** `-p PROFILE` or `--profile PROFILE` right after the URL or file, else the default. */
  function ProfileArgument(argv: seq<string>): string {
    if |argv| > 4 && (argv[3] == "-p" || argv[3] == "--profile") then argv[4] else DefaultProfile
  }

  /** The command words `main` knows, matched after lowering. */
  const Commands: seq<string> := ["help", "-h", "--help", "?", "download", "batch", "server", "profiles", "fix-all", "check"]

  /**
   * The branching of `main` on `sys.argv` (`argv[0]` is the script): help
   * without a command; a download or batch of `argv[2]` with the default
   * profile or `argv[4]`; a missing argument exactly for a bare `download`
   * or `batch`; and an unknown command, echoed lowered, exactly for a word
   * that is none of the commands.
   */
  function ParseArgv(argv: seq<string>): (r: Invocation)
    ensures |argv| < 2 ==> r == ShowHelp
    ensures r.Download? ==> |argv| >= 3 && Lower(argv[1]) == "download" && r.url == argv[2]
    ensures r.Batch? ==> |argv| >= 3 && Lower(argv[1]) == "batch" && r.listFile == argv[2]
    ensures (r.Download? || r.Batch?) ==> r.profile == DefaultProfile || (|argv| > 4 && r.profile == argv[4])
    ensures r.MissingArgument? <==> |argv| == 2 && Lower(argv[1]) in ["download", "batch"]
    ensures r.UnknownCommand? <==> |argv| >= 2 && Lower(argv[1]) !in Commands
    ensures r.UnknownCommand? ==> r.command == Lower(argv[1])
  {
    if |argv| < 2 then ShowHelp
    else
      var command := Lower(argv[1]);
      if command in ["help", "-h", "--help", "?"] then ShowHelp
      else if command == "download" then
        if |argv| < 3 then MissingArgument("URL required") else Download(argv[2], ProfileArgument(argv))
      else if command == "batch" then
        if |argv| < 3 then MissingArgument("URL list file required") else Batch(argv[2], ProfileArgument(argv))
      else if command == "server" then StartServer
      else if command == "profiles" then ListProfiles
      else if command == "fix-all" then FixAll
      else if command == "check" then Check
      else UnknownCommand(command)
  }

  /**
   * The exit code of the branches whose code does not depend on the
   * outside world: 1 exactly for a missing argument or an unknown command,
   * 0 for the other branches that never fail, and none for the branches
   * that run a download, a batch or the server.
   */
  function FixedExitCode(inv: Invocation): (r: Option<int>)
    ensures r == Some(1) <==> inv.MissingArgument? || inv.UnknownCommand?
    ensures r.None? <==> inv.Download? || inv.Batch? || inv.StartServer?
    ensures r.Some? ==> r.value == 0 || r.value == 1
  {
    match inv
    case ShowHelp => Some(0)
    case ListProfiles => Some(0)
    case FixAll => Some(0)
    case Check => Some(0)
    case MissingArgument(_) => Some(1)
    case UnknownCommand(_) => Some(1)
    case _ => None
  }

  lemma {:induction false} LowerIdempotent(s: string)
    ensures Lower(Lower(s)) == Lower(s)
  {
    forall k | 0 <= k < |s| ensures Lower(Lower(s))[k] == Lower(s)[k] {
      var c := s[k];
      if 'A' <= c <= 'Z' {
        assert !('A' <= LowerChar(c) <= 'Z');
      }
    }
  }

  /** The command word is matched without regard to case. */
  lemma CommandIgnoresCase(argv: seq<string>)
    requires |argv| >= 2
    ensures ParseArgv(argv) == ParseArgv(argv[1 := Lower(argv[1])])
  {
    LowerIdempotent(argv[1]);
  }

  /** `download` and `batch` without their argument exit with 1. */
  lemma MissingArgumentFails(argv: seq<string>)
    requires |argv| == 2 && Lower(argv[1]) in ["download", "batch"]
    ensures ParseArgv(argv).MissingArgument? && FixedExitCode(ParseArgv(argv)) == Some(1)
  {
  }

  /**
   * A download or batch uses `argv[2]` and the default profile unless the
   * fourth word is `-p` or `--profile` and a fifth word follows.
   */
  lemma ProfileSelection(argv: seq<string>)
    requires |argv| >= 3 && Lower(argv[1]) in ["download", "batch"]
    ensures var inv := ParseArgv(argv);
      && (inv.Download? || inv.Batch?)
      && (if inv.Download? then inv.url else inv.listFile) == argv[2]
      && inv.profile
         == if |argv| > 4 && argv[3] in ["-p", "--profile"] then argv[4] else "gytmdl"
  {
  }
}
