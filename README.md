# Rust coverage steps of the cryptography nox sessions

A Dafny model of the logic in `noxfile.py` of the `cryptography` package: the
part of the `rust_coverage` session that turns cargo's JSON build messages into
`-object <test binary>` arguments for `llvm-cov export`, the argument lists of
the `profdata merge` and `cov export` commands, and the rules by which the
`tests` session derives its package extras and pytest coverage flags from its
name.

Modules, one per concern:

- `Lines` (`lines.dfy`): Python's `str.splitlines()`, which splits cargo's
  captured output into lines. It uses Python's set of line-boundary characters
  and treats "\r\n" as one boundary. A final boundary does not produce an extra
  empty line.
- `BuildMessages` (`build_messages.dfy`): a decoded build message (`Message`),
  the extraction loop as a method (`ExtractTestBinaries`), and the
  specification function `Extract` that describes the loop's state after any
  prefix of the stream. A second, independent description (`Aborts`,
  `TestPaths`, `Objects`) reads the result directly off the messages, and
  lemmas connect the two.
- `Sessions` (`sessions.dfy`): the extras string, the coverage flags and the
  pytest command line of the `tests` session.
- `Coverage` (`coverage.dfy`): the merge and export argument lists, and the
  Rust half of `rust_coverage` as one method (`RustCoverage`). That method
  returns the commands it issues, whether the report file is opened, and how
  the steps end.

In three places the code does something a reader might not expect; the model
follows the code:

- A line that is not valid JSON aborts the step. `json.loads` is outside the
  `try`, and only `KeyError` is caught (`Coverage.UndecodableLineAborts`).
- The merge command is built and issued even when no `.profraw` file was found.
- The export command is issued whenever the captured output is non-empty and
  no line aborts the extraction, even if no test binary was found
  (`Coverage.ExportWithoutTestBinaries`, `Coverage.RustCoverage`). An empty
  output skips it.

## Model

| member | source | states |
|---|---|---|
| `Lines.SplitLines` | noxfile.py:191-193 | The line list is empty exactly when the captured output is empty. So the `if json_blobs:` guard and "no lines" coincide. No line contains a line-boundary character. |
| `Lines.SplitJoin` | noxfile.py:193 | Splitting newline-terminated output gives back exactly the lines written, in order. |
| `BuildMessages.ExtractTestBinaries` | noxfile.py:190-201 | The loop's result equals `Extract` of the stream. It succeeds exactly when no message aborts. On success it is `Objects(TestPaths(ms))`: the marker/file pairs of the test messages, in stream order. |
| `BuildMessages.ExtractOkIff` | noxfile.py:194-200 | Extraction succeeds if and only if no line is undecodable and no test message has a file count other than one. |
| `BuildMessages.ExtractOkArgs` | noxfile.py:196-199 | When nothing aborts, the list is "-object" followed by the single file of each test message, in encounter order. |
| `BuildMessages.ExtractFirstAbort` | noxfile.py:194-197 | The first aborting message decides the outcome. An undecodable line gives the decode error. A test message whose file count is not one gives the assertion error. Later messages are never looked at. |
| `BuildMessages.FailurePersists` | noxfile.py:194-197 | Once the step has raised, further messages do not change the outcome. |
| `BuildMessages.ExtractAppend` | noxfile.py:193-201 | Processing a concatenated stream is processing the first part, then the second. The list is only ever extended at its end. |
| `BuildMessages.ObjectsLayout` | noxfile.py:198-199 | The argument list has twice as many entries as files. Each even entry is "-object". Each odd entry is the file it introduces. |
| `BuildMessages.ExtractLayout` | noxfile.py:196-199 | A successful result has length 2 × the number of test messages. At index 2k it holds "-object"; at index 2k+1 it holds the k-th test message's file. |
| `BuildMessages.SkippedMessageIsNeutral` | noxfile.py:195-201 | A message missing `profile`, `profile.test` or `filenames`, or whose `test` is false, can be removed from anywhere in the stream without changing the outcome. |
| `BuildMessages.NoTestMessagesNoArgs` | noxfile.py:190-201 | A stream of non-test and key-missing messages yields the empty list, without failing. |
| `Sessions.Extras` | noxfile.py:30-34 | The extras always begin with "test". They include "ssh" if and only if the session is `tests-ssh`, and "test-randomorder" if and only if it is `tests-randomorder`. There are two items for those sessions and one for every other. |
| `Sessions.CovArgs` | noxfile.py:41-47 | The coverage flags are empty if and only if the session is `tests-nocoverage`. Otherwise they are the two `--cov` flags. |
| `Sessions.PytestArgs` | noxfile.py:49-58 | The pytest command line is the fixed prefix, then exactly `CovArgs(name)`, then "--durations=10", then the user's extra arguments verbatim, then "tests/". The coverage flag is present exactly outside `tests-nocoverage`. |
| `Coverage.MergeArgs` | noxfile.py:166-176 | The discovered profiles, in glob order and nothing else, sit between "-sparse" and "-o rust-cov.profdata". The command exists for an empty list too. |
| `Coverage.ExportArgs` | noxfile.py:207-220 | The extension modules come first, then the `-object` pairs in order, then the fixed flags. The first flag reads the profile the merge writes. |
| `Coverage.MessagesOfWrittenLines` | noxfile.py:193-194 | When cargo writes one message per line, each ended by "\n", message i is the decoding of the i-th line written, and there are exactly as many messages as lines. |
| `Coverage.RustCoverage` | noxfile.py:163-221 | The Rust tests, the merge and the JSON rebuild are always issued, in that order. Export is issued, with its output going to `../../cov.lcov`, exactly when the output is non-empty and no line aborts. Its arguments carry the extracted pairs. The status is a decode error or an assertion error exactly when extraction raised that. |
| `Coverage.ExportWithoutTestBinaries` | noxfile.py:191-213 | Output made only of non-test and key-missing messages aborts nothing, and its `-object` list is empty. With `RustCoverage`, that means non-empty output of that kind still reaches export, as `ExportArgs(rustSo, [])`. |
| `Coverage.UndecodableLineAborts` | noxfile.py:194-200 | An undecodable line after any non-aborting messages ends the step in a decode error, whatever follows it. It is never skipped. |
| `Coverage.TestWithoutFileAborts` | noxfile.py:196-197 | A test message with an empty `filenames` list, after non-aborting messages, ends in an assertion error. |

## Left out

- Package installation (`install`, noxfile.py:15-22, 36-37) and `pip list`: external commands with no logic. The extras string is modelled, but not the `.[extras]` install spec built from it.
- Running commands: `session.run` is assumed to succeed. A non-zero exit aborts the session in nox, and that is not modelled.
- The `docs`, `docs-linkcheck`, `flake` and `rust` sessions (noxfile.py:61-149): fixed command lists for external tools.
- nox session registration and options (noxfile.py:12, 25-28).
- `rust_coverage`'s environment update (noxfile.py:154-159) and its call into the `tests` session (noxfile.py:161). `Sessions` models what that call computes, but `Coverage.RustCoverage` starts after it.
- `session.chdir` scoping (noxfile.py:146, 163), the two globs (noxfile.py:165, 202-205) and opening `../../cov.lcov` (noxfile.py:206). These are I/O. Glob results are inputs, and the report file appears only as the path the export writes to.
- JSON decoding internals: `json.loads` is a parameter yielding a `Message` or `Undecodable`.
- Non-object JSON values, and `profile` not being an object: Python raises `TypeError`, which is not modelled. Python truthiness of `test`: `test` is a bool.
- `session.run` returning `None` (a skipped command) and `assert isinstance(json_blobs, str)`: the captured output is always a string here.
- `BuildMessages.ExtractTestBinaries`: assumes assertions are enabled. Under `python -O` the one-file check at noxfile.py:197 is stripped, and a test message with several files would add all of them after one "-object".
- The meaning of the flags given to `llvm-cov` and `llvm-profdata` (sparse merge, the exclusion regexes, the lcov format): these tools are outside the model, which only builds their argument lists.
