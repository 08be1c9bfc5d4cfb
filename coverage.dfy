/** The Rust coverage steps of the `rust_coverage` session, after its
    instrumented Python test run: run the Rust unit tests, merge every raw
    profile found into one profile, rebuild the test binaries with JSON
    messages, and export an lcov report covering the Python extension module
    and every test binary.

    Commands are modelled as their argument lists; running them is left to the
    caller and each is assumed to succeed. The two glob results (the `.profraw`
    files and the installed extension module) and the JSON decoder are inputs. */
module Coverage {
  import opened Lines
  import opened BuildMessages

  const ProfdataPath: string := "rust-cov.profdata"
  const ReportPath: string := "../../cov.lcov"

  const CargoTest: seq<string> := ["cargo", "test", "--no-default-features"]
  const CargoTestMessages: seq<string> :=
    ["cargo", "test", "--no-default-features", "--all", "--tests", "--no-run", "-q", "--message-format=json"]

  const MergePrefix: seq<string> := ["cargo", "profdata", "--", "merge", "-sparse"]
  const ExportPrefix: seq<string> := ["cargo", "cov", "--", "export"]
  /** The profile to read, the three toolchain-source exclusions (passed with
      their quote characters, as written), and the output format. */
  const ExportFlags: seq<string> := [
    "-instr-profile=rust-cov.profdata",
    "--ignore-filename-regex='/.cargo/'",
    "--ignore-filename-regex='/rustc/'",
    "--ignore-filename-regex='/.rustup/toolchains/'",
    "--format=lcov"
  ]

  /** `cargo profdata -- merge -sparse <profraws> -o rust-cov.profdata`: every
      discovered raw profile, in glob order, and nothing else, between the sparse
      flag and the output option. An empty list still gives a full command. */
  function MergeArgs(profraws: seq<string>): (argv: seq<string>)
    ensures |argv| == |profraws| + 7
    ensures argv[..5] == MergePrefix
    ensures argv[5..|argv| - 2] == profraws
    ensures argv[|argv| - 2] == "-o" && argv[|argv| - 1] == ProfdataPath
  {
    MergePrefix + profraws + ["-o", ProfdataPath]
  }

  /** `cargo cov -- export <extension modules> <-object pairs> <flags>`: the
      objects in the order given, then the fixed flags, the first of which reads
      the profile the merge step writes. */
  function ExportArgs(rustSo: seq<string>, objects: seq<string>): (argv: seq<string>)
    ensures |argv| == |rustSo| + |objects| + 9
    ensures argv[..4] == ExportPrefix
    ensures argv[4..4 + |rustSo|] == rustSo
    ensures argv[4 + |rustSo|..|argv| - 5] == objects
    ensures argv[|argv| - 5..] == ExportFlags
    ensures argv[|argv| - 5] == "-instr-profile=" + ProfdataPath
  {
    ExportPrefix + rustSo + objects + ExportFlags
  }

  /** The decoded lines of cargo's captured output. */
  function Messages(captured: string, decode: string -> Message): (ms: seq<Message>)
    ensures |ms| == |SplitLines(captured)|
    ensures forall i :: 0 <= i < |ms| ==> ms[i] == decode(SplitLines(captured)[i])
  {
    var lines := SplitLines(captured);
    seq(|lines|, i requires 0 <= i < |lines| => decode(lines[i]))
  }

  /** How the steps end: normally, or by the uncaught AssertionError or decode error. */
  datatype Status = Done | AssertionError | DecodeError

  /** The commands issued, in order, the report file opened for the export's
      output (if any), and how the steps ended. */
  datatype Run = Run(commands: seq<seq<string>>, report: Option<string>, status: Status)

  /** The Rust part of `rust_coverage`, given the raw profiles the glob finds,
      the captured JSON output of the test rebuild, the decoder for one line,
      and the extension modules the second glob finds. */
  method RustCoverage(profraws: seq<string>, captured: string, decode: string -> Message, rustSo: seq<string>)
    returns (r: Run)
    ensures |r.commands| >= 3
    ensures r.commands[0] == CargoTest
    ensures r.commands[1] == MergeArgs(profraws)
    ensures r.commands[2] == CargoTestMessages
    ensures |r.commands| <= 4
    ensures r.report.Some? <==> |r.commands| == 4
    ensures r.report.Some? ==> r.report.value == ReportPath
    ensures r.status == Done <==> captured == [] || r.report.Some?
    // Export runs exactly when there was output and no line aborted the extraction.
    ensures r.report.Some? <==> captured != [] && NoneAborts(Messages(captured, decode))
    ensures r.report.Some? ==>
      r.commands[3] == ExportArgs(rustSo, Objects(TestPaths(Messages(captured, decode))))
    ensures r.status == DecodeError <==> captured != [] && Extract(Messages(captured, decode)) == DecodeFail
    ensures r.status == AssertionError <==> captured != [] && Extract(Messages(captured, decode)) == AssertFail
  {
    var commands := [CargoTest];
    commands := commands + [MergeArgs(profraws)];
    commands := commands + [CargoTestMessages];
    if captured == [] {
      return Run(commands, None, Done);
    }
    var ms := Messages(captured, decode);
    var extracted := ExtractTestBinaries(ms);
    match extracted
    case AssertFail =>
      r := Run(commands, None, AssertionError);
    case DecodeFail =>
      r := Run(commands, None, DecodeError);
    case Ok(filenames) =>
      commands := commands + [ExportArgs(rustSo, filenames)];
      r := Run(commands, Some(ReportPath), Done);
  }

  // ---------------------------------------------------------------------------
  // Lemmas about the extraction as the pipeline uses it

  /** When cargo writes one message per line, each ended by "\n", the decoded
      stream is exactly those lines, decoded in the order they were written. */
  lemma MessagesOfWrittenLines(lines: seq<string>, decode: string -> Message)
    requires forall k :: 0 <= k < |lines| ==> NoBreaks(lines[k])
    ensures |Messages(JoinLines(lines), decode)| == |lines|
    ensures forall i :: 0 <= i < |lines| ==> Messages(JoinLines(lines), decode)[i] == decode(lines[i])
  {
    SplitJoin(lines);
  }

  /** Output made only of non-test messages still yields an export, with no
      `-object` arguments: the export is guarded by the output being non-empty,
      not by any test binary having been found. */
  lemma ExportWithoutTestBinaries(captured: string, decode: string -> Message)
    requires var ms := Messages(captured, decode);
      forall i :: 0 <= i < |ms| ==> Classify(ms[i]).MissingKey? || Classify(ms[i]).NotTest?
    ensures NoneAborts(Messages(captured, decode))
    ensures Objects(TestPaths(Messages(captured, decode))) == []
    ensures Extract(Messages(captured, decode)) == Ok([])
  {
    var ms := Messages(captured, decode);
    TestPathsEmpty(ms);
    NoTestMessagesNoArgs(ms);
  }

  /** A line that does not decode makes the whole step fail, whatever good
      messages came before it and whatever follows: the decoder's error is
      not caught. */
  lemma UndecodableLineAborts(ms: seq<Message>, rest: seq<Message>)
    requires NoneAborts(ms)
    ensures Extract(ms + [Undecodable] + rest) == DecodeFail
  {
    var all := ms + [Undecodable] + rest;
    assert all[|ms|] == Undecodable;
    assert forall j :: 0 <= j < |ms| ==> all[j] == ms[j];
    ExtractFirstAbort(all, |ms|);
  }

  /** A test message listing no file fails the step with an AssertionError. */
  lemma TestWithoutFileAborts(ms: seq<Message>)
    requires NoneAborts(ms)
    ensures Extract(ms + [Record(Some(Profile(Some(true))), Some([]))]) == AssertFail
  {
    var bad := Record(Some(Profile(Some(true))), Some([]));
    ExtractFirstAbort(ms + [bad], |ms|);
  }
}
