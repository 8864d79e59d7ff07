/**
 * How the web backend and the command-line wrapper fit together: the
 * backend runs `python ytdl.py profiles` and parses what `list_profiles`
 * prints, and it runs `python ytdl.py download <url> -p <profile>` for
 * each job.
 */
module ProfileInterop {
  import opened Options
  import opened Text
  import Jobs
  import Cli

  const Escape: char := '\U{1B}'

  /**
   * A profile name that survives the round trip: one line, no escape
   * character, no check mark, and no whitespace at either end (as the
   * stem of a file name normally is).
   */
  predicate PrintableName(name: string) {
    && '\n' !in name
    && Escape !in name
    && Cli.CheckMark !in name
    && IsTrimmed(name, IsRustWhitespace)
  }

  /**
   * The marks are written twice, once in each program; they are the same
   * characters, so what the wrapper prints is what the backend strips.
   */
  lemma SharedMarks()
    ensures Jobs.CheckMark == Cli.CheckMark
    ensures Jobs.AnsiGreen == Cli.AnsiGreen && Jobs.AnsiReset == Cli.AnsiReset
  {
  }

  /** Dropping the green code from a printed line: it occurs once, after the indentation. */
  lemma DropGreen(p: string)
    requires Escape !in p
    ensures Replace("  " + (Cli.AnsiGreen + ([Cli.CheckMark] + (Cli.AnsiReset + p))), Cli.AnsiGreen, [])
         == "  " + ([Cli.CheckMark] + (Cli.AnsiReset + p))
  {
    var green, mark := Cli.AnsiGreen, [Cli.CheckMark];
    var rest := "[0m" + p;
    assert Cli.AnsiReset == [Escape] + "[0m";
    ConcatAssociative([Escape], "[0m", p);
    assert Escape !in rest;
    assert green[0] == Escape && Escape !in "  " && Escape !in mark;
    ReplaceFirst("  ", mark + ([Escape] + rest), green, []);
    ReplaceSkips(mark, [Escape] + rest, green, []);
    assert !StartsWith([Escape] + rest, green) by {
      assert ([Escape] + rest)[2] == '0' && green[2] == '3';
    }
    ReplaceMiss(Escape, rest, green, []);
    ReplaceNone(rest, green, []);
    ConcatEmpty(mark + ([Escape] + rest));
  }

  /** Dropping the reset code: it occurs once, after the check mark. */
  lemma DropReset(p: string)
    requires Escape !in p
    ensures Replace("  " + ([Cli.CheckMark] + (Cli.AnsiReset + p)), Cli.AnsiReset, [])
         == "  " + ([Cli.CheckMark] + p)
  {
    var reset, mark := Cli.AnsiReset, [Cli.CheckMark];
    var lead := "  " + mark;
    assert reset[0] == Escape && Escape !in lead;
    ConcatAssociative("  ", mark, reset + p);
    ReplaceFirst(lead, p, reset, []);
    ReplaceNone(p, reset, []);
    ConcatEmpty(p);
    ConcatAssociative("  ", mark, p);
  }

  /** Dropping the check mark. */
  lemma DropMark(p: string)
    requires Cli.CheckMark !in p
    ensures Replace("  " + ([Cli.CheckMark] + p), [Cli.CheckMark], []) == "  " + p
  {
    ReplaceFirst("  ", p, [Cli.CheckMark], []);
    ReplaceNone(p, [Cli.CheckMark], []);
    assert [] + p == p;
  }

  /** Cleaning one printed profile line gives back the name. */
  lemma CleanProfileLineOfPrinted(name: string)
    requires PrintableName(name)
    ensures Jobs.CleanProfileLine(Cli.ProfileLine(name)) == name
  {
    StripPrinted(name);
    TrimPadded("   ", name, IsRustWhitespace);
  }

  /** Removing the colour codes and the check mark from a printed line leaves the indented name. */
  lemma StripPrinted(name: string)
    requires Escape !in name && Cli.CheckMark !in name
    ensures var line := Cli.ProfileLine(name);
      Replace(Replace(Replace(line, Jobs.AnsiGreen, []), Jobs.AnsiReset, []), [Jobs.CheckMark], []) == "   " + name
  {
    var p := " " + name;
    assert Escape !in p && Cli.CheckMark !in p;
    var line := Cli.ProfileLine(name);
    assert line == "  " + (Cli.AnsiGreen + ([Cli.CheckMark] + (Cli.AnsiReset + p)));
    DropGreen(p);
    DropReset(p);
    DropMark(p);
    assert "  " + p == "   " + name;
  }

  /** A printed profile line is a single line and carries the check mark. */
  lemma ProfileLineShape(name: string)
    requires PrintableName(name)
    ensures IsPlainLine(Cli.ProfileLine(name))
    ensures Cli.CheckMark in Cli.ProfileLine(name)
  {
    var prefix := "  " + Cli.AnsiGreen + [Cli.CheckMark] + Cli.AnsiReset + " ";
    var line := Cli.ProfileLine(name);
    assert line == prefix + name;
    assert '\n' !in prefix;
    assert line[7] == Cli.CheckMark;
    if name != [] {
      assert line[|line| - 1] == name[|name| - 1];
    } else {
      assert line[|line| - 1] == ' ';
    }
  }

  /** The parser keeps exactly the profile lines, in order, and gives back their names. */
  lemma {:induction false} ParseProfileLinesOfPrinted(names: seq<string>)
    requires forall k :: 0 <= k < |names| ==> PrintableName(names[k])
    ensures Jobs.ParseProfileLines(Cli.ProfileLines(names)) == names
    decreases |names|
  {
    if names != [] {
      var first, rest := Cli.ProfileLine(names[0]), Cli.ProfileLines(names[1..]);
      calc {
        Jobs.ParseProfileLines(Cli.ProfileLines(names));
        { ProfileLinesCons(names); }
        Jobs.ParseProfileLines([first] + rest);
        { Jobs.ParseProfileLinesConcat([first], rest); }
        Jobs.ParseProfileLines([first]) + Jobs.ParseProfileLines(rest);
        { ParsePrintedLine(names[0]); ParseProfileLinesOfPrinted(names[1..]); }
        [names[0]] + names[1..];
        names;
      }
    }
  }

  /** The printed lines of a non-empty list: the first name's line, then the rest's. */
  lemma ProfileLinesCons(names: seq<string>)
    requires names != []
    ensures Cli.ProfileLines(names) == [Cli.ProfileLine(names[0])] + Cli.ProfileLines(names[1..])
  {
    var lines, rest := Cli.ProfileLines(names), Cli.ProfileLines(names[1..]);
    forall k | 0 <= k < |lines| ensures lines[k] == ([Cli.ProfileLine(names[0])] + rest)[k] {
      if k > 0 {
        assert names[k] == names[1..][k - 1];
      }
    }
  }

  /** One printed profile line parses back to its name. */
  lemma ParsePrintedLine(name: string)
    requires PrintableName(name)
    ensures Jobs.ParseProfileLines([Cli.ProfileLine(name)]) == [name]
  {
    Jobs.ParseProfileLine(Cli.ProfileLine(name));
    CleanProfileLineOfPrinted(name);
  }

  /** A line without a check mark contributes nothing. */
  lemma {:induction false} UnmarkedParseEmpty(lines: seq<string>)
    requires forall k :: 0 <= k < |lines| ==> Cli.CheckMark !in lines[k]
    ensures Jobs.ParseProfileLines(lines) == []
    decreases |lines|
  {
    if lines != [] {
      Jobs.ParseProfileLine(lines[0]);
      Jobs.ParseProfileLinesConcat([lines[0]], lines[1..]);
      assert lines == [lines[0]] + lines[1..];
      UnmarkedParseEmpty(lines[1..]);
    }
  }

  /** Lines that `JoinLines` and `Lines` carry unchanged. */
  predicate AllPlain(lines: seq<string>) {
    forall k :: 0 <= k < |lines| ==> IsPlainLine(lines[k])
  }

  lemma AllPlainConcat(a: seq<string>, b: seq<string>)
    requires AllPlain(a) && AllPlain(b)
    ensures AllPlain(a + b)
  {
    forall k | 0 <= k < |a + b| ensures IsPlainLine((a + b)[k]) {
      if k >= |a| {
        assert (a + b)[k] == b[k - |a|];
      }
    }
  }

  lemma ProfileLinesPlain(names: seq<string>)
    requires forall x :: x in names ==> PrintableName(x)
    ensures AllPlain(Cli.ProfileLines(names))
  {
    forall k | 0 <= k < |names| ensures IsPlainLine(Cli.ProfileLines(names)[k]) {
      assert names[k] in names;
      ProfileLineShape(names[k]);
    }
  }

  /** Both groups hold only names from the list. */
  lemma {:induction false} GroupKeeps(profiles: seq<string>, nested: bool)
    ensures forall x :: x in Cli.Group(profiles, nested) ==> x in profiles
    decreases |profiles|
  {
    if profiles != [] {
      GroupKeeps(profiles[1..], nested);
    }
  }

  /** The fixed lines of the listing: the title and the first heading. */
  function ListingHead(): seq<string> {
    ["", Cli.AnsiCyan + "Available Profiles:" + Cli.AnsiReset, "", Cli.AnsiYellow + "Main Configs:" + Cli.AnsiReset]
  }

  /** The fixed lines between the groups: a blank line and the second heading. */
  function ListingMiddle(): seq<string> {
    ["", Cli.AnsiYellow + "Audiophile Profiles:" + Cli.AnsiReset]
  }

  /** A coloured heading is one plain line without a check mark. */
  lemma ColouredLine(colour: string, text: string)
    requires colour == Cli.AnsiCyan || colour == Cli.AnsiYellow
    requires '\n' !in text && Cli.CheckMark !in text
    ensures IsPlainLine(colour + text + Cli.AnsiReset)
    ensures Cli.CheckMark !in colour + text + Cli.AnsiReset
  {
    var line := colour + text + Cli.AnsiReset;
    assert line[|line| - 1] == 'm';
  }

  lemma HeadShape()
    ensures AllPlain(ListingHead())
    ensures Jobs.ParseProfileLines(ListingHead()) == []
  {
    ColouredLine(Cli.AnsiCyan, "Available Profiles:");
    ColouredLine(Cli.AnsiYellow, "Main Configs:");
    UnmarkedParseEmpty(ListingHead());
  }

  lemma MiddleShape()
    ensures AllPlain(ListingMiddle())
    ensures Jobs.ParseProfileLines(ListingMiddle()) == []
  {
    ColouredLine(Cli.AnsiYellow, "Audiophile Profiles:");
    UnmarkedParseEmpty(ListingMiddle());
  }

  lemma TailShape()
    ensures AllPlain([""])
    ensures Jobs.ParseProfileLines([""]) == []
  {
    UnmarkedParseEmpty([""]);
  }

  /** The listing is the fixed lines around the two groups of profile lines. */
  lemma ListingParts(profiles: seq<string>)
    ensures Cli.ProfilesListing(profiles)
         == ListingHead() + (Cli.ProfileLines(Cli.Group(profiles, false))
            + (ListingMiddle() + (Cli.ProfileLines(Cli.Group(profiles, true)) + [""])))
  {
  }

  /** Both groups hold only printable names. */
  lemma GroupsPrintable(profiles: seq<string>)
    requires forall k :: 0 <= k < |profiles| ==> PrintableName(profiles[k])
    ensures forall x :: x in Cli.Group(profiles, false) ==> PrintableName(x)
    ensures forall x :: x in Cli.Group(profiles, true) ==> PrintableName(x)
  {
    GroupKeeps(profiles, false);
    GroupKeeps(profiles, true);
  }

  /** Every line of the listing survives printing and splitting. */
  lemma ListingPlain(profiles: seq<string>)
    requires forall k :: 0 <= k < |profiles| ==> PrintableName(profiles[k])
    ensures AllPlain(Cli.ProfilesListing(profiles))
  {
    GroupsPrintable(profiles);
    var a, b := Cli.ProfileLines(Cli.Group(profiles, false)), Cli.ProfileLines(Cli.Group(profiles, true));
    ListingParts(profiles);
    HeadShape();
    MiddleShape();
    TailShape();
    ProfileLinesPlain(Cli.Group(profiles, false));
    ProfileLinesPlain(Cli.Group(profiles, true));
    AllPlainConcat(b, [""]);
    AllPlainConcat(ListingMiddle(), b + [""]);
    AllPlainConcat(a, ListingMiddle() + (b + [""]));
    AllPlainConcat(ListingHead(), a + (ListingMiddle() + (b + [""])));
  }

  /** Lines the parser skips, around two runs of lines, leave just what the two runs give. */
  lemma ParseFramed(head: seq<string>, a: seq<string>, middle: seq<string>, b: seq<string>, tail: seq<string>)
    requires Jobs.ParseProfileLines(head) == []
    requires Jobs.ParseProfileLines(middle) == []
    requires Jobs.ParseProfileLines(tail) == []
    ensures Jobs.ParseProfileLines(head + (a + (middle + (b + tail))))
         == Jobs.ParseProfileLines(a) + Jobs.ParseProfileLines(b)
  {
    var pa, pb := Jobs.ParseProfileLines(a), Jobs.ParseProfileLines(b);
    Jobs.ParseProfileLinesConcat(b, tail);
    ConcatEmpty(pb);
    assert Jobs.ParseProfileLines(b + tail) == pb;
    Jobs.ParseProfileLinesConcat(middle, b + tail);
    ConcatEmpty(pb);
    assert Jobs.ParseProfileLines(middle + (b + tail)) == pb;
    Jobs.ParseProfileLinesConcat(a, middle + (b + tail));
    assert Jobs.ParseProfileLines(a + (middle + (b + tail))) == pa + pb;
    Jobs.ParseProfileLinesConcat(head, a + (middle + (b + tail)));
    ConcatEmpty(pa + pb);
  }

  /** Between lines the parser skips, the two groups of profile lines give back the two groups. */
  lemma ParseGroups(head: seq<string>, middle: seq<string>, tail: seq<string>, profiles: seq<string>)
    requires forall k :: 0 <= k < |profiles| ==> PrintableName(profiles[k])
    requires Jobs.ParseProfileLines(head) == []
    requires Jobs.ParseProfileLines(middle) == []
    requires Jobs.ParseProfileLines(tail) == []
    ensures Jobs.ParseProfileLines(head + (Cli.ProfileLines(Cli.Group(profiles, false))
              + (middle + (Cli.ProfileLines(Cli.Group(profiles, true)) + tail))))
         == Cli.Group(profiles, false) + Cli.Group(profiles, true)
  {
    GroupsPrintable(profiles);
    var main, nested := Cli.Group(profiles, false), Cli.Group(profiles, true);
    ParseFramed(head, Cli.ProfileLines(main), middle, Cli.ProfileLines(nested), tail);
    ParseProfileLinesOfPrinted(main);
    ParseProfileLinesOfPrinted(nested);
  }

  /** The parser reads the main profiles, then the nested ones, off the listing. */
  lemma ParseListing(profiles: seq<string>)
    requires forall k :: 0 <= k < |profiles| ==> PrintableName(profiles[k])
    ensures Jobs.ParseProfileLines(Cli.ProfilesListing(profiles))
         == Cli.Group(profiles, false) + Cli.Group(profiles, true)
  {
    ListingParts(profiles);
    HeadShape();
    MiddleShape();
    TailShape();
    ParseGroups(ListingHead(), ListingMiddle(), [""], profiles);
  }

  /**
   * `GET /api/profiles` reports the profiles `python ytdl.py profiles`
   * lists: the main ones, then the nested ones, each group in its order,
   * provided every name is printable; otherwise the backend's trimming and
   * stripping alter or split it.
   */
  lemma ProfilesRoundTrip(profiles: seq<string>, stderr: string)
    requires forall k :: 0 <= k < |profiles| ==> PrintableName(profiles[k])
    ensures Jobs.ListProfilesResponse(Jobs.Executed(Some(0), JoinLines(Cli.ProfilesListing(profiles)), stderr))
         == Jobs.ApiResponse(true, Some(Cli.Group(profiles, false) + Cli.Group(profiles, true)), None)
  {
    ListingPlain(profiles);
    LinesOfJoin(Cli.ProfilesListing(profiles));
    ParseListing(profiles);
  }

  /** The command a job runs reaches `download_single` with the job's URL and profile. */
  lemma DownloadCommandReachesDownload(url: string, profile: string)
    ensures Cli.ParseArgv(["ytdl.py", "download", url, "-p", profile]) == Cli.Download(url, profile)
  {
    assert Cli.Lower("download") == "download";
  }
}
