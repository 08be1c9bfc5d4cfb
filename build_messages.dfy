/** Extraction of test-binary paths from cargo's JSON build messages
    (`cargo test --no-run --message-format=json`), as `rust_coverage` does it.

    Each line of cargo's output is decoded on its own. A decoded message whose
    `profile.test` is true must list exactly one file in `filenames`; the
    extraction then emits the marker "-object" followed by that file, which is
    the form `llvm-cov export` takes extra binaries in. A message missing one of
    the looked-up keys is skipped; a line that does not decode, or a test
    message with any other number of files, aborts the whole step. */
module BuildMessages {

  datatype Option<T> = None | Some(value: T)

  /** The `profile` object of a message; only its `test` key is read. */
  datatype Profile = Profile(test: Option<bool>)

  /** One decoded line: a JSON object with the two keys the extraction reads,
      each of which may be absent, or a line the JSON decoder rejects. */
  datatype Message =
    | Undecodable
    | Record(profile: Option<Profile>, filenames: Option<seq<string>>)

  /** What the extraction step ends with: the argument list it built, or the
      exception that ended it (an `AssertionError` from the one-file check, or
      the decoder's error, neither of which is caught). */
  datatype Outcome = Ok(args: seq<string>) | AssertFail | DecodeFail

  const ObjectMarker: string := "-object"

  /** How the loop body treats one message. `MissingKey` is the `KeyError`
      case: `profile`, `profile.test` or (for a test message) `filenames`
      is absent. `filenames` is only looked up once `test` is known true. */
  datatype Kind = Garbled | MissingKey | NotTest | TestBinary(paths: seq<string>)

  function Classify(m: Message): Kind {
    match m
    case Undecodable => Garbled
    case Record(profile, filenames) =>
      if profile.None? || profile.value.test.None? then MissingKey
      else if !profile.value.test.value then NotTest
      else if filenames.None? then MissingKey
      else TestBinary(filenames.value)
  }

  /** What one message adds to the argument list, or the failure it raises. */
  function Contribution(m: Message): Outcome {
    match Classify(m)
    case Garbled => DecodeFail
    case MissingKey => Ok([])
    case NotTest => Ok([])
    case TestBinary(paths) =>
      if |paths| == 1 then Ok([ObjectMarker, paths[0]]) else AssertFail
  }

  /** Sequencing of two steps: the first failure wins, otherwise the lists are concatenated. */
  function Then(a: Outcome, b: Outcome): Outcome {
    match a
    case Ok(x) => (match b case Ok(y) => Ok(x + y) case _ => b)
    case _ => a
  }

  /** The state of the loop after it has processed the messages `ms`, in order. */
  function Extract(ms: seq<Message>): Outcome
    decreases |ms|
  {
    if ms == [] then Ok([])
    else Then(Extract(ms[..|ms| - 1]), Contribution(ms[|ms| - 1]))
  }

  // ---------------------------------------------------------------------------
  // An independent description of the result, read off the messages directly.

  /** A message that ends the step with an exception. */
  predicate Aborts(m: Message) {
    match Classify(m)
    case Garbled => true
    case TestBinary(paths) => |paths| != 1
    case _ => false
  }

  predicate NoneAborts(ms: seq<Message>) {
    forall i :: 0 <= i < |ms| ==> !Aborts(ms[i])
  }

  /** The single file of every well-formed test message, in stream order. */
  function TestPaths(ms: seq<Message>): seq<string>
    decreases |ms|
  {
    if ms == [] then []
    else
      var here := match Classify(ms[0])
        case TestBinary(paths) => if |paths| == 1 then [paths[0]] else []
        case _ => [];
      here + TestPaths(ms[1..])
  }

  /** The argument list `llvm-cov export` takes for the binaries `paths`. */
  function Objects(paths: seq<string>): seq<string>
    decreases |paths|
  {
    if paths == [] then [] else [ObjectMarker, paths[0]] + Objects(paths[1..])
  }

  // ---------------------------------------------------------------------------
  // Lemmas

  lemma ThenAssociative(a: Outcome, b: Outcome, c: Outcome)
    ensures Then(Then(a, b), c) == Then(a, Then(b, c))
  {
  }

  /** The loop over a concatenated stream is the loop over the first part
      followed by the loop over the second: messages are handled one at a time,
      with no state besides the argument list. */
  lemma {:induction false} ExtractAppend(a: seq<Message>, b: seq<Message>)
    ensures Extract(a + b) == Then(Extract(a), Extract(b))
    decreases |b|
  {
    if b == [] {
      assert a + b == a;
      match Extract(a)
      case Ok(x) => assert x + [] == x;
      case _ =>
    } else {
      var b' := b[..|b| - 1];
      var m := b[|b| - 1];
      assert (a + b)[..|a + b| - 1] == a + b';
      assert (a + b)[|a + b| - 1] == m;
      ExtractAppend(a, b');
      ThenAssociative(Extract(a), Extract(b'), Contribution(m));
    }
  }

  lemma ExtractSingle(m: Message)
    ensures Extract([m]) == Contribution(m)
  {
  }

  /** Once the step has failed, later messages change nothing. */
  lemma FailurePersists(a: seq<Message>, b: seq<Message>)
    requires !Extract(a).Ok?
    ensures Extract(a + b) == Extract(a)
  {
    ExtractAppend(a, b);
  }

  /** The step succeeds exactly when no message aborts it. */
  lemma {:induction false} ExtractOkIff(ms: seq<Message>)
    ensures Extract(ms).Ok? <==> forall i :: 0 <= i < |ms| ==> !Aborts(ms[i])
    decreases |ms|
  {
    if ms != [] {
      var init := ms[..|ms| - 1];
      ExtractOkIff(init);
      assert forall i :: 0 <= i < |init| ==> init[i] == ms[i];
    }
  }

  /** On success the list is the marker/file pairs of the test messages, in order. */
  lemma {:induction false} ExtractOkArgs(ms: seq<Message>)
    requires forall i :: 0 <= i < |ms| ==> !Aborts(ms[i])
    ensures Extract(ms) == Ok(Objects(TestPaths(ms)))
    decreases |ms|
  {
    if ms != [] {
      var m, rest := ms[0], ms[1..];
      assert ms == [m] + rest;
      assert !Aborts(m);
      ExtractAppend([m], rest);
      ExtractSingle(m);
      ExtractOkArgs(rest);
      if Classify(m).TestBinary? {
        var ps := [Classify(m).paths[0]] + TestPaths(rest);
        assert ps[0] == Classify(m).paths[0] && ps[1..] == TestPaths(rest);
      } else {
        assert [] + TestPaths(rest) == TestPaths(rest);
        assert [] + Objects(TestPaths(rest)) == Objects(TestPaths(rest));
      }
    }
  }

  /** The first aborting message decides the failure: a decode error for a line
      that does not decode, an assertion error for a test message whose file
      count is not one. Nothing after it is looked at. */
  lemma ExtractFirstAbort(ms: seq<Message>, i: nat)
    requires i < |ms| && Aborts(ms[i])
    requires forall j :: 0 <= j < i ==> !Aborts(ms[j])
    ensures Extract(ms) == (if Classify(ms[i]).Garbled? then DecodeFail else AssertFail)
  {
    var before, m, after := ms[..i], ms[i], ms[i + 1..];
    assert ms == before + [m] + after;
    ExtractOkIff(before);
    ExtractAppend(before, [m]);
    ExtractSingle(m);
    FailurePersists(before + [m], after);
  }

  /** Marker/file layout: twice as many entries as files, every even entry the
      marker and every odd entry the file it introduces. */
  lemma {:induction false} ObjectsLayout(paths: seq<string>)
    ensures |Objects(paths)| == 2 * |paths|
    ensures forall k :: 0 <= k < |paths| ==>
      Objects(paths)[2 * k] == ObjectMarker && Objects(paths)[2 * k + 1] == paths[k]
    decreases |paths|
  {
    if paths != [] {
      ObjectsLayout(paths[1..]);
      var o := Objects(paths);
      forall k | 0 <= k < |paths|
        ensures o[2 * k] == ObjectMarker && o[2 * k + 1] == paths[k]
      {
        if k > 0 {
          assert o[2 * k] == Objects(paths[1..])[2 * (k - 1)];
          assert o[2 * k + 1] == Objects(paths[1..])[2 * (k - 1) + 1];
        }
      }
    }
  }

  /** What a successful extraction yields, stated on the list itself. */
  lemma ExtractLayout(ms: seq<Message>, out: seq<string>)
    requires Extract(ms) == Ok(out)
    ensures |out| == 2 * |TestPaths(ms)|
    ensures forall k :: 0 <= k < |TestPaths(ms)| ==>
      out[2 * k] == ObjectMarker && out[2 * k + 1] == TestPaths(ms)[k]
  {
    ExtractOkIff(ms);
    ExtractOkArgs(ms);
    ObjectsLayout(TestPaths(ms));
  }

  /** A message with a missing key, or one that is not a test, can be removed
      from anywhere in the stream without changing the outcome. */
  lemma SkippedMessageIsNeutral(a: seq<Message>, m: Message, b: seq<Message>)
    requires Classify(m).MissingKey? || Classify(m).NotTest?
    ensures Extract(a + [m] + b) == Extract(a + b)
  {
    ExtractAppend(a + [m], b);
    ExtractAppend(a, [m]);
    ExtractSingle(m);
    ExtractAppend(a, b);
    match Extract(a)
    case Ok(x) => assert x + [] == x;
    case _ =>
  }

  /** A stream without test messages (and without failures) yields the empty list. */
  lemma {:induction false} NoTestMessagesNoArgs(ms: seq<Message>)
    requires forall i :: 0 <= i < |ms| ==> Classify(ms[i]).MissingKey? || Classify(ms[i]).NotTest?
    ensures Extract(ms) == Ok([])
  {
    ExtractOkIff(ms);
    ExtractOkArgs(ms);
    assert TestPaths(ms) == [] by {
      TestPathsEmpty(ms);
    }
  }

  lemma {:induction false} TestPathsEmpty(ms: seq<Message>)
    requires forall i :: 0 <= i < |ms| ==> !Classify(ms[i]).TestBinary?
    ensures TestPaths(ms) == []
    decreases |ms|
  {
    if ms != [] {
      assert forall i :: 0 <= i < |ms[1..]| ==> ms[1..][i] == ms[i + 1];
      TestPathsEmpty(ms[1..]);
    }
  }

  // ---------------------------------------------------------------------------
  // The loop itself

  /** The `for blob in json_blobs.splitlines()` loop over already-decoded lines:
      builds the `-object <file>` list, or stops at the first exception. */
  method ExtractTestBinaries(ms: seq<Message>) returns (r: Outcome)
    ensures r == Extract(ms)
    ensures r.Ok? <==> NoneAborts(ms)
    ensures r.Ok? ==> r.args == Objects(TestPaths(ms))
  {
    var filenames: seq<string> := [];
    for i := 0 to |ms|
      invariant Extract(ms[..i]) == Ok(filenames)
    {
      assert ms[..i + 1][..i] == ms[..i];
      match ms[i]
      case Undecodable =>
        FailurePersists(ms[..i + 1], ms[i + 1..]);
        assert ms[..i + 1] + ms[i + 1..] == ms;
        ExtractOkIff(ms);
        return DecodeFail;
      case Record(profile, fs) =>
        // A missing `profile`, `test` or `filenames` key raises KeyError,
        // which is caught: the message adds nothing.
        if profile.Some? && profile.value.test.Some? && profile.value.test.value && fs.Some? {
          if |fs.value| != 1 {
            FailurePersists(ms[..i + 1], ms[i + 1..]);
            assert ms[..i + 1] + ms[i + 1..] == ms;
            ExtractOkIff(ms);
            return AssertFail;
          }
          filenames := filenames + [ObjectMarker];
          filenames := filenames + fs.value;
        }
    }
    assert ms[..|ms|] == ms;
    ExtractOkIff(ms);
    ExtractOkArgs(ms);
    r := Ok(filenames);
  }
}
