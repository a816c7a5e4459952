/** The command-line front end of `main`: dispatch on the first argument,
    the `--code` sub-parse of its options, the two error printers, and the
    whole run of the tool as exit code, standard output, standard error
    and the file written. Whether an output file can be opened is an
    oracle `canOpen`; `usage` stands for the help text and `version` for
    the build's version string. */
module CommandLine {
  import opened Text
  import opened Serializers
  import opened Driver

  /** The tab width `--code` uses when no `-t` is given. */
  const DefaultTabWidth: nat := 4

  /** Where the code serialiser writes. */
  datatype Dest = StdOut | File(path: string)

  datatype Command =
    | PrintSimple
    | PrintVerbose
    | GenerateCode(tabWidth: nat, dest: Dest)
    | ShowHelp
    | ShowVersion

  /** The outcome of reading the arguments. */
  datatype Parsed =
    | Selected(cmd: Command)
    | InvalidOption(option: string)
    | InvalidArgument(name: string)

  /** A one-character token holding a decimal digit. */
  predicate IsDigitToken(t: string) {
    |t| == 1 && IsDigit(t[0])
  }

  /** The `--code` loop from the state (`tabWidth`, `dest`) on the tokens
      still to read: `-t` takes the next token as a one-digit tab width;
      the first other token names the output file, which must open; any
      further other token is an error. */
  function ScanCode(tabWidth: nat, dest: Dest, args: seq<string>, canOpen: string -> bool): (r: Parsed)
    ensures r.Selected? ==> r.cmd.GenerateCode? && (r.cmd.tabWidth == tabWidth || r.cmd.tabWidth < 10)
    ensures r.Selected? && dest.File? ==> r.cmd.dest == dest
    ensures !r.Selected? ==> r.InvalidArgument? && r.name in {"-t", "outputfile", "--code"}
    decreases |args|
  {
    if args == [] then Selected(GenerateCode(tabWidth, dest))
    else if args[0] == "-t" then
      if |args| >= 2 && IsDigitToken(args[1]) then ScanCode(DigitValue(args[1][0]), dest, args[2..], canOpen)
      else InvalidArgument("-t")
    else if dest.StdOut? then
      if canOpen(args[0]) then ScanCode(tabWidth, File(args[0]), args[1..], canOpen)
      else InvalidArgument("outputfile")
    else InvalidArgument("--code")
  }

  /** What `main` makes of the arguments after the program name. */
  function Parse(args: seq<string>, canOpen: string -> bool): (r: Parsed)
    ensures r.Selected? && r.cmd.GenerateCode? ==> r.cmd.tabWidth < 10
    ensures r.InvalidOption? <==>
      |args| > 0 && args[0] !in {"--simple", "--verbose", "--code", "--help", "--version"}
    ensures r.InvalidOption? ==> r.option == args[0]
    ensures r.InvalidArgument? ==> |args| > 0 && args[0] == "--code"
  {
    if |args| == 0 || args[0] == "--simple" then Selected(PrintSimple)
    else if args[0] == "--verbose" then Selected(PrintVerbose)
    else if args[0] == "--code" then ScanCode(DefaultTabWidth, StdOut, args[1..], canOpen)
    else if args[0] == "--help" then Selected(ShowHelp)
    else if args[0] == "--version" then Selected(ShowVersion)
    else InvalidOption(args[0])
  }

  /** The `--code` loop of `main`, a cursor over the tokens; `ScanCode`
      is its specification. */
  method ParseCodeArgs(args: seq<string>, canOpen: string -> bool) returns (p: Parsed)
    ensures p == ScanCode(DefaultTabWidth, StdOut, args, canOpen)
  {
    var tabWidth := DefaultTabWidth;
    var dest := StdOut;
    var i := 0;
    while i < |args|
      invariant 0 <= i <= |args|
      invariant ScanCode(tabWidth, dest, args[i..], canOpen) == ScanCode(DefaultTabWidth, StdOut, args, canOpen)
      decreases |args| - i
    {
      var cur := args[i];
      assert args[i..][0] == cur;
      if cur == "-t" {
        i := i + 1;
        if i < |args| && |args[i]| == 1 && IsDigit(args[i][0]) {
          assert args[i - 1..][1] == args[i] && args[i - 1..][2..] == args[i + 1..];
          tabWidth := DigitValue(args[i][0]);
        } else {
          p := InvalidArgument("-t");
          return;
        }
      } else if dest.StdOut? {
        if canOpen(cur) {
          assert args[i..][1..] == args[i + 1..];
          dest := File(cur);
        } else {
          p := InvalidArgument("outputfile");
          return;
        }
      } else {
        p := InvalidArgument("--code");
        return;
      }
      i := i + 1;
    }
    p := Selected(GenerateCode(tabWidth, dest));
  }

  /** The if/else chain of `main` on its first argument, as a method;
      `Parse` is its specification. */
  method ParseArgs(args: seq<string>, canOpen: string -> bool) returns (p: Parsed)
    ensures p == Parse(args, canOpen)
  {
    if |args| == 0 || args[0] == "--simple" {
      p := Selected(PrintSimple);
    } else if args[0] == "--verbose" {
      p := Selected(PrintVerbose);
    } else if args[0] == "--code" {
      p := ParseCodeArgs(args[1..], canOpen);
    } else if args[0] == "--help" {
      p := Selected(ShowHelp);
    } else if args[0] == "--version" {
      p := Selected(ShowVersion);
    } else {
      p := InvalidOption(args[0]);
    }
  }

  // ---------------------------------------------------------------------
  // Properties of the `--code` options

  /** Tab options only: pairs of `-t` and a digit token. */
  predicate OnlyTabOptions(args: seq<string>)
    decreases |args|
  {
    args == [] || (|args| >= 2 && args[0] == "-t" && IsDigitToken(args[1]) && OnlyTabOptions(args[2..]))
  }

  /** Without a `-t` the tab width stays what it was (4 from `main`). */
  lemma {:induction false} NoTabKeepsWidth(tabWidth: nat, dest: Dest, args: seq<string>, canOpen: string -> bool)
    requires "-t" !in args
    requires ScanCode(tabWidth, dest, args, canOpen).Selected?
    ensures ScanCode(tabWidth, dest, args, canOpen).cmd.tabWidth == tabWidth
    decreases |args|
  {
    if args != [] {
      assert args[0] != "-t";
      assert "-t" !in args[1..];
      NoTabKeepsWidth(tabWidth, File(args[0]), args[1..], canOpen);
    }
  }

  /** In an accepted `--code` option list the last `-t` is followed by a
      digit, and that digit is the tab width. */
  lemma {:induction false} LastTabWins(tabWidth: nat, dest: Dest, args: seq<string>, canOpen: string -> bool, i: nat)
    requires i < |args| && args[i] == "-t" && "-t" !in args[i + 1..]
    requires ScanCode(tabWidth, dest, args, canOpen).Selected?
    ensures i + 1 < |args| && IsDigitToken(args[i + 1])
    ensures ScanCode(tabWidth, dest, args, canOpen).cmd.tabWidth == DigitValue(args[i + 1][0])
    decreases |args|
  {
    if args[0] == "-t" {
      assert |args| >= 2 && IsDigitToken(args[1]);
      if i == 0 {
        assert "-t" !in args[2..] by {
          assert forall t :: t in args[2..] ==> t in args[1..];
        }
        NoTabKeepsWidth(DigitValue(args[1][0]), dest, args[2..], canOpen);
      } else {
        assert i != 1 by {
          assert !IsDigitToken("-t");
        }
        assert args[2..][i - 2] == args[i] && args[2..][i - 2 + 1..] == args[i + 1..];
        LastTabWins(DigitValue(args[1][0]), dest, args[2..], canOpen, i - 2);
      }
    } else {
      assert args[1..][i - 1] == args[i] && args[1..][i - 1 + 1..] == args[i + 1..];
      LastTabWins(tabWidth, File(args[0]), args[1..], canOpen, i - 1);
    }
  }

  /** Once the output file is open, the options are accepted exactly when
      only tab options follow: any further positional token is rejected. */
  lemma {:induction false} AfterFileOnlyTabs(tabWidth: nat, path: string, args: seq<string>, canOpen: string -> bool)
    ensures ScanCode(tabWidth, File(path), args, canOpen).Selected? <==> OnlyTabOptions(args)
    decreases |args|
  {
    if args != [] && args[0] == "-t" && |args| >= 2 && IsDigitToken(args[1]) {
      AfterFileOnlyTabs(DigitValue(args[1][0]), path, args[2..], canOpen);
    }
  }

  /** Output goes to standard output exactly when there are only tab
      options; otherwise it goes to the first other token, after which
      only tab options may follow. */
  lemma {:induction false} Destination(tabWidth: nat, args: seq<string>, canOpen: string -> bool)
    ensures var r := ScanCode(tabWidth, StdOut, args, canOpen);
      && (r.Selected? && r.cmd.dest == StdOut <==> OnlyTabOptions(args))
      && (r.Selected? && r.cmd.dest.File? ==>
            exists i :: 0 <= i < |args| && OnlyTabOptions(args[..i]) && args[i] == r.cmd.dest.path
                        && canOpen(args[i]) && OnlyTabOptions(args[i + 1..]))
    decreases |args|
  {
    var r := ScanCode(tabWidth, StdOut, args, canOpen);
    if args == [] {
    } else if args[0] == "-t" {
      if |args| >= 2 && IsDigitToken(args[1]) {
        var rest := args[2..];
        Destination(DigitValue(args[1][0]), rest, canOpen);
        if r.Selected? && r.cmd.dest.File? {
          var i :| 0 <= i < |rest| && OnlyTabOptions(rest[..i]) && rest[i] == r.cmd.dest.path
                   && canOpen(rest[i]) && OnlyTabOptions(rest[i + 1..]);
          assert args[..i + 2][2..] == rest[..i];
          assert args[i + 2] == rest[i] && args[i + 3..] == rest[i + 1..];
        }
      }
    } else {
      if canOpen(args[0]) {
        AfterFileOnlyTabs(tabWidth, args[0], args[1..], canOpen);
        if r.Selected? {
          assert args[..0] == [];
        }
      }
    }
  }

  /** `-t` may come before or after the output file. */
  lemma TabBeforeOrAfterFile(digit: string, path: string, canOpen: string -> bool)
    requires IsDigitToken(digit) && canOpen(path) && path != "-t"
    ensures ScanCode(DefaultTabWidth, StdOut, ["-t", digit, path], canOpen)
         == ScanCode(DefaultTabWidth, StdOut, [path, "-t", digit], canOpen)
         == Selected(GenerateCode(DigitValue(digit[0]), File(path)))
  {
    var w := DigitValue(digit[0]);
    assert ["-t", digit, path][2..] == [path];
    assert [path][1..] == [];
    assert [path, "-t", digit][1..] == ["-t", digit];
    assert ["-t", digit][2..] == [];
    assert ScanCode(w, StdOut, [path], canOpen) == ScanCode(w, File(path), [], canOpen);
    assert ScanCode(DefaultTabWidth, File(path), ["-t", digit], canOpen) == ScanCode(w, File(path), [], canOpen);
  }

  /** The tab width left by a run of tab options. */
  function TabsWidth(tabWidth: nat, args: seq<string>): (w: nat)
    requires OnlyTabOptions(args)
    ensures args == [] ==> w == tabWidth
    ensures args != [] ==> w < 10
    decreases |args|
  {
    if args == [] then tabWidth else TabsWidth(DigitValue(args[1][0]), args[2..])
  }

  /** A run of tab options only sets the width; the scan then goes on
      with the tokens after it. */
  lemma {:induction false} ScanTabs(tabWidth: nat, dest: Dest, pre: seq<string>, rest: seq<string>,
                                    canOpen: string -> bool)
    requires OnlyTabOptions(pre)
    ensures ScanCode(tabWidth, dest, pre + rest, canOpen) == ScanCode(TabsWidth(tabWidth, pre), dest, rest, canOpen)
    decreases |pre|
  {
    if pre != [] {
      var args := pre + rest;
      assert args[0] == "-t" && args[1] == pre[1] && IsDigitToken(pre[1]);
      assert args[2..] == pre[2..] + rest;
      assert ScanCode(tabWidth, dest, args, canOpen) == ScanCode(DigitValue(pre[1][0]), dest, pre[2..] + rest, canOpen);
      assert TabsWidth(tabWidth, pre) == TabsWidth(DigitValue(pre[1][0]), pre[2..]);
      ScanTabs(DigitValue(pre[1][0]), dest, pre[2..], rest, canOpen);
    } else {
      assert pre + rest == rest;
    }
  }

  /** After any tab options (before or after the file), a `-t` that is
      last or is not followed by a one-digit token fails with `-t`. */
  lemma TabError(tabWidth: nat, dest: Dest, pre: seq<string>, rest: seq<string>, canOpen: string -> bool)
    requires OnlyTabOptions(pre)
    requires rest == [] || !IsDigitToken(rest[0])
    ensures ScanCode(tabWidth, dest, pre + ["-t"] + rest, canOpen) == InvalidArgument("-t")
  {
    assert pre + ["-t"] + rest == pre + (["-t"] + rest);
    ScanTabs(tabWidth, dest, pre, ["-t"] + rest, canOpen);
    var args := ["-t"] + rest;
    assert args[0] == "-t";
    assert |args| >= 2 ==> args[1] == rest[0];
  }

  /** The first token other than a tab option is the output file; if it
      cannot be opened the options fail with `outputfile`, whatever follows. */
  lemma UnopenableFile(tabWidth: nat, pre: seq<string>, path: string, rest: seq<string>, canOpen: string -> bool)
    requires OnlyTabOptions(pre) && path != "-t" && !canOpen(path)
    ensures ScanCode(tabWidth, StdOut, pre + [path] + rest, canOpen) == InvalidArgument("outputfile")
  {
    assert pre + [path] + rest == pre + ([path] + rest);
    ScanTabs(tabWidth, StdOut, pre, [path] + rest, canOpen);
    assert ([path] + rest)[0] == path;
  }

  /** Tab options, an openable file and tab options are accepted: the
      output goes to that file with the width the last `-t` gave. */
  lemma FileAccepted(tabWidth: nat, pre: seq<string>, path: string, post: seq<string>, canOpen: string -> bool)
    requires OnlyTabOptions(pre) && OnlyTabOptions(post) && path != "-t" && canOpen(path)
    ensures ScanCode(tabWidth, StdOut, pre + [path] + post, canOpen)
         == Selected(GenerateCode(TabsWidth(TabsWidth(tabWidth, pre), post), File(path)))
  {
    var w := TabsWidth(tabWidth, pre);
    assert pre + [path] + post == pre + ([path] + post);
    ScanTabs(tabWidth, StdOut, pre, [path] + post, canOpen);
    assert ([path] + post)[0] == path && ([path] + post)[1..] == post;
    assert post == post + [];
    ScanTabs(w, File(path), post, [], canOpen);
  }

  /** A second token other than a tab option, after the file has opened,
      fails with `--code`, whatever follows. */
  lemma SecondFileRejected(tabWidth: nat, pre: seq<string>, path: string, mid: seq<string>, other: string,
                           rest: seq<string>, canOpen: string -> bool)
    requires OnlyTabOptions(pre) && OnlyTabOptions(mid) && path != "-t" && canOpen(path) && other != "-t"
    ensures ScanCode(tabWidth, StdOut, pre + [path] + mid + [other] + rest, canOpen) == InvalidArgument("--code")
  {
    var w := TabsWidth(tabWidth, pre);
    var after := mid + ([other] + rest);
    assert pre + [path] + mid + [other] + rest == pre + ([path] + after);
    ScanTabs(tabWidth, StdOut, pre, [path] + after, canOpen);
    assert ([path] + after)[0] == path && ([path] + after)[1..] == after;
    ScanTabs(w, File(path), mid, [other] + rest, canOpen);
    assert ([other] + rest)[0] == other;
  }

  /** Only the first argument selects the mode: no argument means
      `--simple`, and whatever follows `--simple`, `--verbose`, `--help` or
      `--version` is ignored. */
  lemma DispatchOnFirst(rest: seq<string>, canOpen: string -> bool)
    ensures Parse([], canOpen) == Selected(PrintSimple)
    ensures Parse(["--simple"] + rest, canOpen) == Selected(PrintSimple)
    ensures Parse(["--verbose"] + rest, canOpen) == Selected(PrintVerbose)
    ensures Parse(["--help"] + rest, canOpen) == Selected(ShowHelp)
    ensures Parse(["--version"] + rest, canOpen) == Selected(ShowVersion)
    ensures Parse(["--code"] + rest, canOpen) == ScanCode(DefaultTabWidth, StdOut, rest, canOpen)
  {
    assert (["--code"] + rest)[1..] == rest;
  }

  /** The three error exits of the `--code` loop on small option lists;
      `TabError`, `UnopenableFile` and `SecondFileRejected` state them for
      every option list. */
  lemma CodeErrors(path: string, other: string, canOpen: string -> bool)
    requires path != "-t" && other != "-t"
    ensures ScanCode(DefaultTabWidth, StdOut, ["-t"], canOpen) == InvalidArgument("-t")
    ensures ScanCode(DefaultTabWidth, StdOut, ["-t", "10"], canOpen) == InvalidArgument("-t")
    ensures ScanCode(DefaultTabWidth, StdOut, ["-t", "a"], canOpen) == InvalidArgument("-t")
    ensures !canOpen(path) ==> ScanCode(DefaultTabWidth, StdOut, [path], canOpen) == InvalidArgument("outputfile")
    ensures canOpen(path) ==> ScanCode(DefaultTabWidth, StdOut, [path, other], canOpen) == InvalidArgument("--code")
  {
    assert !IsDigitToken("10") && !IsDigitToken("a");
    assert [path, other][1..] == [other];
  }

  /** `-t 0` selects a tab character, `-t 9` nine spaces. */
  lemma TabWidthExamples(canOpen: string -> bool)
    ensures ScanCode(DefaultTabWidth, StdOut, ["-t", "0"], canOpen) == Selected(GenerateCode(0, StdOut))
    ensures ScanCode(DefaultTabWidth, StdOut, ["-t", "9"], canOpen) == Selected(GenerateCode(9, StdOut))
    ensures ScanCode(DefaultTabWidth, StdOut, [], canOpen) == Selected(GenerateCode(4, StdOut))
  {
    assert ["-t", "0"][2..] == [] && ["-t", "9"][2..] == [];
    assert IsDigitToken("0") && DigitValue('0') == 0;
    assert IsDigitToken("9") && DigitValue('9') == 9;
  }

  // ---------------------------------------------------------------------
  // Error messages

  /** `option` without its leading dashes. */
  function StripDashes(s: string): (r: string)
    ensures |r| <= |s| && r == s[|s| - |r|..]
    ensures forall i :: 0 <= i < |s| - |r| ==> s[i] == '-'
    ensures r == [] || r[0] != '-'
    decreases |s|
  {
    if s != [] && s[0] == '-' then StripDashes(s[1..]) else s
  }

  /** Skipping a run of leading dashes that ends the dashes strips them. */
  lemma {:induction false} StripDashesSkips(s: string, i: nat)
    requires i <= |s| && forall k :: 0 <= k < i ==> s[k] == '-'
    requires i == |s| || s[i] != '-'
    ensures StripDashes(s) == s[i..]
    decreases i
  {
    if i > 0 {
      assert s[1..][i - 1..] == s[i..];
      StripDashesSkips(s[1..], i - 1);
    }
  }

  const HelpHint: string := "Try '" + ExeName + " --help' for more information."

  function InvalidOptionLines(option: string): seq<string> {
    [ExeName + ": invalid option -- '" + StripDashes(option) + "'", HelpHint]
  }

  function InvalidArgumentLines(name: string): seq<string> {
    [ExeName + ": invalid argument for option -- '" + name + "'", HelpHint]
  }

  /** `print_invalid_option`: the option's dashes are skipped one by one. */
  method PrintInvalidOption(out: string, option: string) returns (o: string, code: int)
    ensures o == out + Unlines(InvalidOptionLines(option))
    ensures code == 2
  {
    var i := 0;
    while i < |option| && option[i] == '-'
      invariant 0 <= i <= |option|
      invariant forall k :: 0 <= k < i ==> option[k] == '-'
      decreases |option| - i
    {
      i := i + 1;
    }
    StripDashesSkips(option, i);
    var line := ExeName + ": invalid option -- '" + option[i..] + "'";
    o := out + line + "\n";
    o := o + HelpHint + "\n";
    assert [line, HelpHint] == InvalidOptionLines(option);
    WriteLines2(out, line, HelpHint);
    code := 2;
  }

  /** `print_invalid_argument`. */
  method PrintInvalidArgument(out: string, name: string) returns (o: string, code: int)
    ensures o == out + Unlines(InvalidArgumentLines(name))
    ensures code == 2
  {
    var line := ExeName + ": invalid argument for option -- '" + name + "'";
    o := out + line + "\n";
    o := o + HelpHint + "\n";
    assert [line, HelpHint] == InvalidArgumentLines(name);
    WriteLines2(out, line, HelpHint);
    code := 2;
  }

  /** `--x` is reported as `x`, and `--` as the empty option. */
  lemma StripDashesExample()
    ensures StripDashes("--x") == "x"
  {
    assert "--x"[1..] == "-x" && "-x"[1..] == "x";
  }

  lemma StripDashesOnlyDashes()
    ensures StripDashes("--") == ""
  {
    assert "--"[1..] == "-" && "-"[1..] == "";
  }

  // ---------------------------------------------------------------------
  // A run of the tool

  /** What a run leaves behind: the exit code, the text on standard
      output and on standard error, and the files written (path to text). */
  datatype Outcome = Outcome(exit: int, stdout: string, stderr: string, files: map<string, string>)

  /** `main`: errors are reported before anything is serialised; the
      selected serialiser writes to standard output or to the file. */
  method RunTool(args: seq<string>, canOpen: string -> bool, probe: Container -> Result,
                 version: string, usage: string)
    returns (r: Outcome)
    ensures var p := Parse(args, canOpen);
      && (r.exit == 0 <==> p.Selected?)
      && (!p.Selected? ==> r == ErrorOutcome(p))
      && (p.Selected? ==> r == Execute(p.cmd, probe, version, usage))
  {
    var p := ParseArgs(args, canOpen);
    if p.Selected? {
      r := Run(p.cmd, probe, version, usage);
    } else {
      r := ReportError(p);
    }
  }

  /** The outcome of a rejected command line: exit code 2, the message on
      standard error, and nothing on standard output or in any file. */
  function ErrorOutcome(p: Parsed): (r: Outcome)
    requires !p.Selected?
    ensures r.exit == 2 && r.stdout == "" && r.files == map[]
  {
    if p.InvalidOption? then Outcome(2, "", Unlines(InvalidOptionLines(p.option)), map[])
    else Outcome(2, "", Unlines(InvalidArgumentLines(p.name)), map[])
  }

  method ReportError(p: Parsed) returns (r: Outcome)
    requires !p.Selected?
    ensures r == ErrorOutcome(p)
  {
    if p.InvalidOption? {
      var err, code := PrintInvalidOption("", p.option);
      r := Outcome(code, "", err, map[]);
    } else {
      var err, code := PrintInvalidArgument("", p.name);
      r := Outcome(code, "", err, map[]);
    }
  }

  /** The outcome of an accepted command: exit code 0, nothing on standard
      error, and the selected text on standard output or in the file. */
  function Execute(cmd: Command, probe: Container -> Result, version: string, usage: string): (r: Outcome)
    ensures r.exit == 0 && r.stderr == ""
    ensures cmd.GenerateCode? && cmd.dest.File? ==> r.stdout == "" && r.files.Keys == {cmd.dest.path}
    ensures !(cmd.GenerateCode? && cmd.dest.File?) ==> r.files == map[]
  {
    match cmd
    case PrintSimple => Outcome(0, Unlines(OutputLines(Simple, probe)), "", map[])
    case PrintVerbose => Outcome(0, Unlines(OutputLines(Verbose, probe)), "", map[])
    case GenerateCode(w, StdOut) => Outcome(0, Unlines(OutputLines(Code(w), probe)), "", map[])
    case GenerateCode(w, File(path)) => Outcome(0, "", "", map[path := Unlines(OutputLines(Code(w), probe))])
    case ShowHelp => Outcome(0, usage, "", map[])
    case ShowVersion => Outcome(0, Unlines([ExeName + " version " + version]), "", map[])
  }

  /** Carrying out an accepted command, as a method; `Execute` is its
      specification. */
  method Run(cmd: Command, probe: Container -> Result, version: string, usage: string) returns (r: Outcome)
    ensures r == Execute(cmd, probe, version, usage)
  {
    match cmd
    case PrintSimple =>
      var text := Serialize(Simple, probe, "");
      assert text == Unlines(OutputLines(Simple, probe));
      r := Outcome(0, text, "", map[]);
    case PrintVerbose =>
      var text := Serialize(Verbose, probe, "");
      assert text == Unlines(OutputLines(Verbose, probe));
      r := Outcome(0, text, "", map[]);
    case GenerateCode(w, dest) =>
      var text := Serialize(Code(w), probe, "");
      assert text == Unlines(OutputLines(Code(w), probe));
      match dest {
        case StdOut => r := Outcome(0, text, "", map[]);
        case File(path) => r := Outcome(0, "", "", map[path := text]);
      }
    case ShowHelp =>
      r := Outcome(0, usage, "", map[]);
    case ShowVersion =>
      var line := ExeName + " version " + version;
      var text := "" + line + "\n";
      AppendLine("", [], line);
      assert text == line + "\n";
      r := Outcome(0, text, "", map[]);
  }
}
