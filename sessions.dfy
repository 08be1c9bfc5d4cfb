/** How the `tests` session derives its options from the session's name: the
    package extras it installs and the coverage flags it passes to pytest.
    The same function backs four registered sessions ("tests", "tests-ssh",
    "tests-randomorder", "tests-nocoverage") and is also called from the
    `rust_coverage` session under that session's own name. */
module Sessions {

  const SshSession: string := "tests-ssh"
  const RandomOrderSession: string := "tests-randomorder"
  const NoCoverageSession: string := "tests-nocoverage"

  /** The extras every test session installs, and the two added by name. */
  const TestItem: string := "test"
  const SshItem: string := "ssh"
  const RandomOrderItem: string := "test-randomorder"

  /** Index of the first comma in `s`, or `|s|` when there is none. */
  function FirstComma(s: string): (i: nat)
    ensures i <= |s|
    ensures ',' !in s[..i]
    ensures i < |s| ==> s[i] == ','
    decreases |s|
  {
    if s == [] || s[0] == ',' then 0
    else
      var j := FirstComma(s[1..]);
      assert s[..1 + j] == [s[0]] + s[1..][..j];
      1 + j
  }

  /** The comma-separated items of an extras string. */
  function Items(s: string): (items: seq<string>)
    ensures |items| >= 1
    ensures forall k :: 0 <= k < |items| ==> ',' !in items[k]
    decreases |s|
  {
    var i := FirstComma(s);
    if i == |s| then [s] else [s[..i]] + Items(s[i + 1..])
  }

  lemma ItemsOfWord(w: string)
    requires ',' !in w
    ensures Items(w) == [w]
  {
  }

  /** A comma ends the first item; the rest of the string gives the rest of the items. */
  lemma ItemsOfJoin(w: string, t: string)
    requires ',' !in w
    ensures Items(w + "," + t) == [w] + Items(t)
  {
    var s := w + "," + t;
    assert s[..|w|] == w && s[|w|] == ',' && s[|w| + 1..] == t;
    assert forall k :: 0 <= k < |w| ==> s[k] == w[k];
  }

  /** What an extras string built by `Extras` means, for any three distinct
      comma-free items: "test", then at most one of the two optional items. */
  lemma ExtrasItems(extras: string, test: string, item: string, other: string, added: bool, otherAdded: bool)
    requires ',' !in test && ',' !in item && ',' !in other
    requires item != test && item != other
    requires !(added && otherAdded)
    requires extras == if added then test + "," + item
                       else if otherAdded then test + "," + other
                       else test
    ensures Items(extras)[0] == test
    ensures item in Items(extras) <==> added
    ensures |Items(extras)| == if added || otherAdded then 2 else 1
  {
    ItemsOfWord(test);
    if added {
      ItemsOfWord(item);
      ItemsOfJoin(test, item);
    } else if otherAdded {
      ItemsOfWord(other);
      ItemsOfJoin(test, other);
    }
  }

  /** The extras string for session `name`: "test", plus "ssh" for the SSH
      session, plus "test-randomorder" for the random-order session. */
  method Extras(name: string) returns (extras: string)
    ensures Items(extras)[0] == TestItem
    ensures SshItem in Items(extras) <==> name == SshSession
    ensures RandomOrderItem in Items(extras) <==> name == RandomOrderSession
    ensures |Items(extras)| == (if name == SshSession || name == RandomOrderSession then 2 else 1)
  {
    assert SshSession != RandomOrderSession by {
      assert |SshSession| != |RandomOrderSession|;
    }
    extras := TestItem;
    if name == SshSession {
      extras := extras + "," + SshItem;
    }
    if name == RandomOrderSession {
      extras := extras + "," + RandomOrderItem;
    }
    ghost var test, ssh, randomOrder := TestItem, SshItem, RandomOrderItem;
    assert |ssh| != |test| && |ssh| != |randomOrder| && |randomOrder| != |test|;
    assert ',' !in test && ',' !in ssh && ',' !in randomOrder;
    ExtrasItems(extras, test, ssh, randomOrder, name == SshSession, name == RandomOrderSession);
    ExtrasItems(extras, test, randomOrder, ssh, name == RandomOrderSession, name == SshSession);
  }

  /** The pytest-cov flags: both measured packages, except in the no-coverage session. */
  function CovArgs(name: string): (args: seq<string>)
    ensures args == [] <==> name == NoCoverageSession
    ensures args != [] ==> args == ["--cov=cryptography", "--cov=tests"]
  {
    if name != NoCoverageSession then ["--cov=cryptography", "--cov=tests"] else []
  }

  const PytestPrefix: seq<string> := ["pytest", "-n", "auto", "--dist=worksteal"]

  /** The pytest command line of the session: fixed flags, the coverage flags,
      the durations report, the user's extra arguments verbatim, the test directory. */
  function PytestArgs(name: string, posargs: seq<string>): (argv: seq<string>)
    ensures |argv| == (if name == NoCoverageSession then 6 else 8) + |posargs|
    ensures argv[..4] == PytestPrefix
    ensures argv[|argv| - 1] == "tests/"
    ensures argv[|argv| - 1 - |posargs|..|argv| - 1] == posargs
    ensures argv[4] == "--cov=cryptography" <==> name != NoCoverageSession
    ensures argv[4..|argv| - 2 - |posargs|] == CovArgs(name)
    ensures argv[|argv| - 2 - |posargs|] == "--durations=10"
  {
    PytestPrefix + CovArgs(name) + ["--durations=10"] + posargs + ["tests/"]
  }
}
