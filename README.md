# node_size_debugger, modelled in Dafny

`foonathan_memory_node_size_debugger` is a command-line tool. For each of
ten node-based standard containers and each relevant alignment, it
measures the base node size: the size of a node without its value. It
writes the table in one of three forms:

- simple (`--simple`, the default);
- verbose (`--verbose`);
- C++ code (`--code`), which defines an `<name>_node_size` trait per
  container.

The project models what the tool writes and how `main` reads its
arguments. The measurement itself is a parameter.

- Module `Text`:
  - decimal rendering of naturals, as `operator<<` prints a `std::size_t`;
  - right-aligned padding, as `std::setw` applies it;
  - runs of spaces;
  - the line structure of a text. A text is a list of lines, each ending
    in a newline (`Unlines`), and `SplitLines` reads the lines back.
- Module `Serializers`:
  - the three serialisers with their `prefix`, `operator()` and `suffix`;
  - the code serialiser's helpers `tab`, `struct_name` and `alignment`.

  An output stream is a string. Each emitting method takes the text
  written so far and returns it extended; its contract gives the exact
  lines it appends.
- Module `Driver`:
  - the fixed order of the ten container kinds (the `debuggers` tuple);
  - `serialize` and `serialize_impl`.

  The probe `debug(...)` is a function from container kind to
  measurement record.
- Module `CommandLine`:
  - the first-argument dispatch of `main`;
  - the `--code` option loop, with tab width 4 by default, `-t` followed by
    one digit, and a single output file;
  - `print_invalid_option` and `print_invalid_argument`;
  - a whole run (`RunTool`): exit code, standard output, standard error and
    the file written.

  Whether a path can be opened for writing is an oracle `canOpen`.

The option rules follow the code of `main`. In particular:

- `--simple` and `--verbose` also ignore any tokens after them, because
  only the first token is examined. This holds for `--help` and
  `--version` too.
- An error in the `--code` options is raised before anything is
  serialised, so a rejected run writes nothing to standard output.

## Model

| member | source | states |
|---|---|---|
| `Serializers.EmitSimple` | tool/node_size_debugger.cpp:22-27 | appends to the stream exactly the lines of `SimpleLines`: the `<name>:` header, then one line per pair in input order |
| `Serializers.SimpleEntries` | tool/node_size_debugger.cpp:25-26 | one line per pair, the i-th line being `\t<alignment>=<size>` of the i-th pair |
| `Serializers.SimpleShape` | tool/node_size_debugger.cpp:20-29 | a simple block has 1 + number-of-pairs lines: the header `<name>:` and `\t<a>=<s>` for each pair in order; splitting its text at newlines gives those lines back when the name has no newline |
| `Serializers.SetW2Cases` | tool/node_size_debugger.cpp:42-43 | `std::setw(2)` adds one leading space exactly to a single-digit number and leaves longer numbers unchanged |
| `Serializers.VerboseEntries` | tool/node_size_debugger.cpp:41-43 | one verbose line per pair, in input order |
| `Serializers.EmitVerbose` | tool/node_size_debugger.cpp:38-44 | appends exactly the lines of `VerboseLines`: the header, then one line per pair |
| `Serializers.VerboseShape` | tool/node_size_debugger.cpp:36-46 | one header `For container '<name>':`, then per pair `\tWith an alignment of <a> is the base node size <s>.` with both numbers padded to width 2; the lines read back from the text |
| `Serializers.TabShape` | tool/node_size_debugger.cpp:104-109 | `tab()` is `"\t"` exactly when the width is 0, and otherwise exactly `tabWidth` spaces |
| `Serializers.StructNameInjective` | tool/node_size_debugger.cpp:111-114 | `struct_name(n)` is `n` followed by `_node_size`; distinct names give distinct identifiers |
| `Serializers.WriteForwardDeclaration` | tool/node_size_debugger.cpp:81-84 | appends the `namespace detail` opening, the brace and the indented forward declaration of `<name>_node_size` |
| `Serializers.WriteSpecialisation` | tool/node_size_debugger.cpp:86-90 | appends an empty line and the four lines of the full specialisation binding that alignment to that base node size |
| `Serializers.WriteSpecialisations` | tool/node_size_debugger.cpp:85-90 | the loop over the pairs appends one specialisation per pair, in input order |
| `Serializers.WriteGenericTemplate` | tool/node_size_debugger.cpp:91-96 | appends the close of `namespace detail` and the generic template, which adds `sizeof(T)` to the specialisation chosen by `FOONATHAN_ALIGNOF(T)` |
| `Serializers.EmitCode` | tool/node_size_debugger.cpp:60-97 | appends exactly the lines of `CodeLines`: header, the specialisations in order, footer |
| `Serializers.SpecialisationsAt` | tool/node_size_debugger.cpp:85-90 | the specialisations take 5 lines per pair, and lines 5i to 5i+4 are those of the i-th pair |
| `Serializers.CodeLayout` | tool/node_size_debugger.cpp:81-96 | a code block has 12 + 5·pairs lines: the 4 header lines, the i-th pair's specialisation at lines 4+5i to 8+5i, then the 8 footer lines |
| `Serializers.SpecialisationsCount` | tool/node_size_debugger.cpp:85-87 | the indented `template <>` line occurs once per pair among the specialisations |
| `Serializers.CodeTemplateCount` | tool/node_size_debugger.cpp:81-96 | exactly one `template <>` line per pair occurs in the whole code block, so no other line can be mistaken for a specialisation |
| `Serializers.CodeLinesNoSlash` | tool/node_size_debugger.cpp:81-96 | no line of a code block starts with `/`, so none is a banner |
| `Serializers.CodeLinesNoNewline` | tool/node_size_debugger.cpp:81-96 | every line of a code block is free of newlines when the container name is |
| `Serializers.WritePrefix` | tool/node_size_debugger.cpp:54-58 | `prefix()` appends nothing for simple and verbose; for code it appends the comment naming the tool, the BEGIN banner and an empty line |
| `Serializers.WriteSuffix` | tool/node_size_debugger.cpp:99-102 | `suffix()` appends nothing, or the END banner for code |
| `Serializers.Emit` | tool/node_size_debugger.cpp:60-97 | `operator()` of the chosen serialiser appends that serialiser's record lines |
| `Serializers.BannersDistinct` | tool/node_size_debugger.cpp:56-57 | the tool comment, the BEGIN banner and the END banner are three different, non-empty lines |
| `Serializers.RecordLinesCount` | tool/node_size_debugger.cpp:22-27 | a record takes 1 + pairs lines (simple, verbose) or 12 + 5·pairs lines (code) |
| `Driver.ContainersOnceEach` | tool/node_size_debugger.cpp:122-124 | the order of the `debuggers` tuple lists all ten container kinds, each exactly once |
| `Driver.Serialize` | tool/node_size_debugger.cpp:141-147 | appends the prefix, then the ten records in container order, then the suffix |
| `Driver.SerializeRecords` | tool/node_size_debugger.cpp:134-139 | `serialize_impl` appends one record per container kind, in tuple order |
| `Driver.OutputOrder` | tool/node_size_debugger.cpp:141-147 | the output starts with the prefix lines and ends with the suffix lines, and the block of the k-th kind sits between block k-1 and block k+1 with nothing in between |
| `Driver.BlocksCount` | tool/node_size_debugger.cpp:134-139 | the first k blocks have k + pairs lines, or 12k + 5·pairs for code |
| `Driver.OutputLineCount` | tool/node_size_debugger.cpp:141-147 | simple and verbose output has 10 + pairs lines; code output has 124 + 5·pairs lines (3 prefix lines, 12 per kind, 5 per pair, the END banner) |
| `Driver.PlainOutputStartsWithRecord` | tool/node_size_debugger.cpp:20 | with the empty `prefix()`, the first line of simple or verbose output is the header of the `forward_list` record |
| `Driver.BannersNotInBlocks` | tool/node_size_debugger.cpp:81-96 | no record line of the code output is a banner |
| `Driver.CodeBannerLines` | tool/node_size_debugger.cpp:54-58 | code output opens with the tool comment, the BEGIN banner and an empty line, and its last line is the END banner |
| `Driver.CodeBannerCounts` | tool/node_size_debugger.cpp:99-102 | code output contains each banner exactly once, because `prefix` and `suffix` run once |
| `Driver.CodeTextHead` | tool/node_size_debugger.cpp:56-57 | the text of the code output starts with the tool comment, the BEGIN banner and an empty line |
| `Driver.CodeTextTail` | tool/node_size_debugger.cpp:101 | the text of the code output ends with the END banner and a newline |
| `Driver.BlocksTemplateCount` | tool/node_size_debugger.cpp:134-139 | the first k blocks of code output hold one `template <>` line per pair measured for those kinds |
| `Driver.CodeOutputTemplateCount` | tool/node_size_debugger.cpp:141-147 | the whole code output holds exactly one specialisation per measured pair |
| `Driver.OutputLinesRoundTrip` | tool/node_size_debugger.cpp:141-147 | when no container name has a newline, splitting the output text at newlines gives back exactly the output lines |
| `CommandLine.ScanCode` | tool/node_size_debugger.cpp:205-224 | the `--code` loop either selects code output, with a tab width that is the one it started with or a single digit, and keeps an already chosen file; or fails with the argument name `-t`, `outputfile` or `--code` |
| `CommandLine.Parse` | tool/node_size_debugger.cpp:194-234 | an invalid option is reported exactly when the first token is none of the five options, and it names that token; an invalid argument arises only under `--code`; a code tab width is always 0..9 |
| `CommandLine.ParseCodeArgs` | tool/node_size_debugger.cpp:200-224 | the cursor loop of `main`, starting from tab width 4 and standard output, decides what `ScanCode` decides |
| `CommandLine.ParseArgs` | tool/node_size_debugger.cpp:194-234 | the if/else chain of `main` decides what `Parse` decides |
| `CommandLine.NoTabKeepsWidth` | tool/node_size_debugger.cpp:200 | without `-t` the tab width stays at its start value (4 from `main`) |
| `CommandLine.LastTabWins` | tool/node_size_debugger.cpp:207-211 | in accepted options the last `-t` is followed by a digit token, and that digit is the tab width, whatever earlier `-t` said |
| `CommandLine.AfterFileOnlyTabs` | tool/node_size_debugger.cpp:215-223 | once the output file is open, the options are accepted exactly when only `-t digit` pairs follow |
| `CommandLine.Destination` | tool/node_size_debugger.cpp:202-221 | output goes to standard output exactly when all options are `-t digit` pairs; when it goes to a file, that file is the first other token, it opened, and only `-t digit` pairs come before and after it (the converse is `FileAccepted`) |
| `CommandLine.ScanTabs` | tool/node_size_debugger.cpp:207-211 | a run of `-t digit` pairs only sets the tab width (to the last digit, `TabsWidth`), and the loop goes on with the tokens after it, for any start state |
| `CommandLine.TabError` | tool/node_size_debugger.cpp:207-213 | for every option list whose earlier tokens are `-t digit` pairs, a `-t` that is last or is followed by a token that is not one digit fails with `-t` |
| `CommandLine.UnopenableFile` | tool/node_size_debugger.cpp:215-219 | for every option list, a first token other than `-t` (after any `-t digit` pairs) that cannot be opened fails with `outputfile`, whatever follows |
| `CommandLine.FileAccepted` | tool/node_size_debugger.cpp:205-227 | `-t digit` pairs, an openable token and `-t digit` pairs are accepted, writing to that file with the width of the last `-t` (4 when there is none) |
| `CommandLine.SecondFileRejected` | tool/node_size_debugger.cpp:215-223 | for every option list, a second token other than `-t` after the file has opened (with only `-t digit` pairs between) fails with `--code`, whatever follows |
| `CommandLine.TabBeforeOrAfterFile` | tool/node_size_debugger.cpp:205-221 | `-t d path` and `path -t d` both select tab width d and the file `path` |
| `CommandLine.DispatchOnFirst` | tool/node_size_debugger.cpp:194-232 | no argument or `--simple` means simple; `--verbose`, `--help` and `--version` ignore all later tokens; `--code` runs the option loop on the rest |
| `CommandLine.CodeErrors` | tool/node_size_debugger.cpp:207-223 | examples of the three error exits: `-t` alone, `-t 10` and `-t a` fail with `-t`; a lone token that cannot open fails with `outputfile`; two openable-then-other tokens fail with `--code` |
| `CommandLine.TabWidthExamples` | tool/node_size_debugger.cpp:200-211 | `-t 0` selects width 0 (a tab), `-t 9` width 9, and no option the default 4 |
| `CommandLine.StripDashes` | tool/node_size_debugger.cpp:178-179 | the result is a suffix of the option that starts with no dash, and everything removed before it is a dash |
| `CommandLine.StripDashesSkips` | tool/node_size_debugger.cpp:178-179 | skipping the full run of leading dashes one by one leaves what `StripDashes` leaves |
| `CommandLine.StripDashesExample` | tool/node_size_debugger.cpp:178-180 | `--x` is displayed as `x` |
| `CommandLine.StripDashesOnlyDashes` | tool/node_size_debugger.cpp:178-180 | `--` is displayed as the empty option |
| `CommandLine.PrintInvalidOption` | tool/node_size_debugger.cpp:175-183 | writes `<exe>: invalid option -- '<option without leading dashes>'` and the `--help` hint, and returns 2 |
| `CommandLine.PrintInvalidArgument` | tool/node_size_debugger.cpp:185-190 | writes `<exe>: invalid argument for option -- '<name>'` and the `--help` hint, and returns 2 |
| `CommandLine.RunTool` | tool/node_size_debugger.cpp:192-235 | the exit code is 0 exactly when the arguments are accepted; a rejected run yields only the error message; an accepted one yields what the selected command writes |
| `CommandLine.ErrorOutcome` | tool/node_size_debugger.cpp:213-234 | a rejected run exits with 2 and writes nothing to standard output and no file |
| `CommandLine.ReportError` | tool/node_size_debugger.cpp:213-234 | the error is reported with the printer matching its kind |
| `CommandLine.Execute` | tool/node_size_debugger.cpp:194-232 | an accepted run exits with 0 and writes nothing to standard error; code output to a file leaves standard output empty and writes that one file; every other command writes no file |
| `CommandLine.Run` | tool/node_size_debugger.cpp:194-232 | runs the selected serialiser, or prints the help or the version line, with the outcome `Execute` describes |
| `Text.NatToString` | tool/node_size_debugger.cpp:26 | the decimal rendering is a non-empty string of digits, one digit exactly for numbers below 10, and starts with `0` only for 0 |
| `Text.DecimalRoundTrip` | tool/node_size_debugger.cpp:26 | reading a rendered natural back as decimal digits gives the natural |
| `Text.NatToStringInjective` | tool/node_size_debugger.cpp:88-89 | distinct alignments and sizes are rendered differently |
| `Text.PadLeftShape` | tool/node_size_debugger.cpp:42-43 | padding to a width keeps the string as a suffix, fills only with spaces, and never truncates |
| `Text.SplitUnlines` | tool/node_size_debugger.cpp:24-26 | the lines of a text built from newline-free lines are read back exactly by splitting at newlines |
| `Text.UnlinesAppend` | tool/node_size_debugger.cpp:144-146 | writing two lists of lines one after the other writes the text of their concatenation |
| `Text.ConcatAppend` | tool/node_size_debugger.cpp:137 | joining blocks distributes over concatenation of the block lists |
| `Text.ConcatMember` | tool/node_size_debugger.cpp:137 | a line of the joined blocks is a line of one of the blocks |

## Left out

- The node-size measurement: `debug(...)` and the `debug_*` types. They live in `node_size_debugger.hpp`, which is not part of this model. Each container's record is a parameter `probe`.
- Real streams: `std::cout`, `std::cerr`, `std::ofstream::open`, `rdbuf` redirection, and flushing and closing the file. Streams are strings, and whether a file opens is the oracle `canOpen`.
- `print_help` (lines 149-168): its verbatim usage text is the parameter `usage` of `Run`.
- `print_version`: the `VERSION` macro is the parameter `version`. The `exe_spaces` padding string (line 14) is used only by the help text, so it is left out with it.
- The `int dummy[]` pack expansion in `serialize_impl` (lines 137-138). It is modelled as a loop over the fixed sequence `Containers`.
- `serialize_single` (lines 126-132): it is never called.
- Locale behaviour of `std::isdigit`: a digit is one of `0` to `9`.
- `CommandLine.ErrorOutcome`: the model does not track that a file opened by the `--code` loop stays created, and truncated to empty, when a later token is rejected (for example `--code out.txt extra`). `ofstream::open` creates the file before the error exit; the model's file map records only files the run writes text to, so it is empty on every error.
- `CommandLine.ScanCode`: arguments are Dafny strings, which may hold a NUL character; a real `argv` token cannot, since it ends at its first NUL. The model admits such tokens (a `-t` followed by `"3\0"` is rejected as a multi-character token), but the program can never receive them, so nothing it does is lost.
- The worked examples of full output text, for example the exact code printed for one list record, are not stated as concrete lemmas. Equality over long string literals is beyond the solver's budget here. `CodeLayout`, `CodeTextHead` and `CodeTextTail` state the same layout for every input instead.
- No class wraps the output stream. The serialisers hold only a reference to an external `std::ostream`, so each emitting method takes the text written so far and returns it extended.
