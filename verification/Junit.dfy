/** Merging and parsing JUnit reports (`ci/run-pr-tests.py`), on parsed XML trees. */
module Junit {
  import opened Wrappers
  import opened Sequences

  datatype Element = Element(tag: string, attributes: map<string, string>, text: string, children: seq<Element>)

  /** The conversions of the source language: reading and writing numbers, stripping text.
      `None` is the `ValueError` of a text that is no number. */
  datatype Reader = Reader(
    number: string -> Option<int>,
    time: string -> Option<real>,
    show: int -> string,
    showTime: real -> string,
    strip: string -> string)

  /** A report file: nothing if it is missing or cannot be parsed. */
  type File = Option<Element>

  const TESTSUITES := "testsuites"
  const TESTSUITE := "testsuite"

  predicate IsSuite(e: Element) {
    e.tag == TESTSUITE
  }

  function Attribute(e: Element, name: string, otherwise: string): string {
    if name in e.attributes then e.attributes[name] else otherwise
  }

  function Suites(file: File): seq<Element> {
    match file
    case None => []
    case Some(root) => if root.tag == TESTSUITES then Filter(root.children, IsSuite) else [root]
  }

  function AllSuites(files: seq<File>): seq<Element> {
    if files == [] then [] else AllSuites(files[..|files| - 1]) + Suites(files[|files| - 1])
  }

  // ---------------------------------------------------------------- what a suite reports

  datatype Failure = Failure(name: string, classname: string, message: string, text: string)

  datatype Report = Report(total: int, failed: int, errors: int, skipped: int, failures: seq<Failure>)

  const NOTHING := Report(0, 0, 0, 0, [])

  function Plus(a: Report, b: Report): Report {
    Report(a.total + b.total, a.failed + b.failed, a.errors + b.errors, a.skipped + b.skipped, a.failures + b.failures)
  }

  function Count(r: Reader, suite: Element, name: string): Option<int> {
    if name in suite.attributes then r.number(suite.attributes[name]) else Some(0)
  }

  function FirstNamed(children: seq<Element>, tag: string): Option<Element> {
    if children == [] then None else if children[0].tag == tag then Some(children[0]) else FirstNamed(children[1..], tag)
  }

  /** The failure of a test case, or else its error. */
  function Fault(testcase: Element): Option<Element> {
    var failure := FirstNamed(testcase.children, "failure");
    if failure.Some? then failure else FirstNamed(testcase.children, "error")
  }

  function FailureOf(r: Reader, testcase: Element, fault: Element): Failure {
    Failure(Attribute(testcase, "name", "unknown"), Attribute(testcase, "classname", ""),
            Attribute(fault, "message", ""), r.strip(fault.text))
  }

  function Failures(r: Reader, children: seq<Element>): seq<Failure> {
    if children == [] then []
    else
      var before, last := Failures(r, children[..|children| - 1]), children[|children| - 1];
      if last.tag == "testcase" && Fault(last).Some? then before + [FailureOf(r, last, Fault(last).value)] else before
  }

  function SuiteReport(r: Reader, suite: Element): Option<Report> {
    var total, failed := Count(r, suite, "tests"), Count(r, suite, "failures");
    var errors, skipped := Count(r, suite, "errors"), Count(r, suite, "skipped");
    if total.Some? && failed.Some? && errors.Some? && skipped.Some? then
      Some(Report(total.value, failed.value, errors.value, skipped.value, Failures(r, suite.children)))
    else None
  }

  function Reported(r: Reader, suites: seq<Element>): Option<Report> {
    if suites == [] then Some(NOTHING)
    else
      var before, last := Reported(r, suites[..|suites| - 1]), SuiteReport(r, suites[|suites| - 1]);
      if before.Some? && last.Some? then Some(Plus(before.value, last.value)) else None
  }

  /** `parse_test_results`, but for the passed count, which follows. */
  function Parsed(r: Reader, files: seq<File>): Option<Report> {
    Reported(r, AllSuites(files))
  }

  // ---------------------------------------------------------------- merging

  function SuiteTime(r: Reader, suite: Element): Option<real> {
    var text := Attribute(suite, "time", "");
    if text == "" then Some(0.0) else r.time(text)
  }

  function TotalTime(r: Reader, suites: seq<Element>): Option<real> {
    if suites == [] then Some(0.0)
    else
      var before, last := TotalTime(r, suites[..|suites| - 1]), SuiteTime(r, suites[|suites| - 1]);
      if before.Some? && last.Some? then Some(before.value + last.value) else None
  }

  function Totals(r: Reader, report: Report, time: real): map<string, string> {
    map["tests" := r.show(report.total), "failures" := r.show(report.failed), "errors" := r.show(report.errors),
        "skipped" := r.show(report.skipped), "time" := r.showTime(time)]
  }

  /** `merge_junit_results`: the tree it writes. */
  function Merged(r: Reader, files: seq<File>): Option<Element> {
    var suites := AllSuites(files);
    var report, time := Reported(r, suites), TotalTime(r, suites);
    if report.Some? && time.Some? then Some(Element(TESTSUITES, Totals(r, report.value, time.value), "", suites)) else None
  }

  /** A root that is neither a suite nor a list of suites is counted as a suite when the files
      are parsed, and is no suite any more below the merged root. */
  predicate Odd(file: File) {
    file.Some? && file.value.tag != TESTSUITES && file.value.tag != TESTSUITE
  }

  // ---------------------------------------------------------------- what the merge preserves

  lemma ReportedOneMore(r: Reader, suites: seq<Element>, suite: Element)
    ensures Reported(r, suites + [suite]) == PlusBoth(Reported(r, suites), SuiteReport(r, suite))
  {
    assert (suites + [suite])[..|suites|] == suites;
  }

  lemma PlusNothing(a: Report)
    ensures Plus(NOTHING, a) == a
  {
  }

  /** A report splits into those of the elements that satisfy `p` and of the others. */
  lemma {:induction false} ReportedSplits(r: Reader, suites: seq<Element>, p: Element -> bool, q: Element -> bool)
    requires Reported(r, suites).Some? && forall e <- suites :: q(e) == !p(e)
    ensures Reported(r, Filter(suites, p)).Some? && Reported(r, Filter(suites, q)).Some?
    ensures Splits(Reported(r, suites).value, Reported(r, Filter(suites, p)).value, Reported(r, Filter(suites, q)).value)
  {
    if suites != [] {
      var before, last := suites[..|suites| - 1], suites[|suites| - 1];
      assert suites == before + [last];
      ReportedSplits(r, before, p, q);
      FilterOneMore(before, last, p);
      FilterOneMore(before, last, q);
      ReportedOneMore(r, before, last);
      ReportedOneMore(r, Filter(before, p), last);
      ReportedOneMore(r, Filter(before, q), last);
      SplitsOneMore(Reported(r, before).value, Reported(r, Filter(before, p)).value, Reported(r, Filter(before, q)).value,
                    SuiteReport(r, last).value);
    }
  }

  lemma SplitsOneMore(all: Report, yes: Report, no: Report, next: Report)
    requires Splits(all, yes, no)
    ensures Splits(Plus(all, next), Plus(yes, next), no) && Splits(Plus(all, next), yes, Plus(no, next))
  {
  }

  /** The counts of `all` are shared out, and its failures are `yes`'s if `no` has none. */
  predicate Splits(all: Report, yes: Report, no: Report) {
    && all.total == yes.total + no.total && all.failed == yes.failed + no.failed
    && all.errors == yes.errors + no.errors && all.skipped == yes.skipped + no.skipped
    && |all.failures| == |yes.failures| + |no.failures| && (no.failures == [] ==> all.failures == yes.failures)
  }

  lemma SplitsEvenlyIff(all: Report, yes: Report, no: Report)
    requires Splits(all, yes, no)
    ensures yes == all <==> no == NOTHING
  {
  }

  lemma MergedSuites(r: Reader, files: seq<File>)
    requires Merged(r, files).Some?
    ensures AllSuites([Merged(r, files)]) == Filter(AllSuites(files), IsSuite)
  {
    assert [Merged(r, files)][..0] == [];
    assert AllSuites([Merged(r, files)]) == [] + Suites(Merged(r, files));
  }

  predicate IsOdd(e: Element) {
    !IsSuite(e)
  }

  lemma {:induction false} FilterTwice(s: seq<Element>)
    ensures Filter(Filter(s, IsSuite), IsOdd) == []
  {
    if s != [] {
      FilterTwice(s[..|s| - 1]);
      var kept := Filter(s[..|s| - 1], IsSuite);
      assert (kept + [s[|s| - 1]])[..|kept|] == kept;
    }
  }

  /** The suites that are no suites below the merged root are the roots of the odd files. */
  lemma {:induction false} OddSuitesAreOddRoots(files: seq<File>)
    ensures Filter(AllSuites(files), IsOdd) == AllSuites(Filter(files, Odd))
  {
    if files != [] {
      var before, last := files[..|files| - 1], files[|files| - 1];
      OddSuitesAreOddRoots(before);
      FilterTogether(AllSuites(before), Suites(last), IsOdd);
      OddSuitesOfOne(last);
      var kept := Filter(before, Odd);
      assert (kept + [last])[..|kept|] == kept;
    }
  }

  lemma OddSuitesOfOne(file: File)
    ensures Filter(Suites(file), IsOdd) == if Odd(file) then Suites(file) else []
  {
    if file.Some? {
      if file.value.tag == TESTSUITES {
        FilterTwice(file.value.children);
      } else {
        assert [file.value][..0] == [];
      }
    }
  }

  /** Parsing the merged file gives the counts and the failures, in order, of parsing the files
      together exactly when the odd-rooted files report nothing: no failures, and counts that
      add up to zero. */
  lemma MergePreservesIff(r: Reader, files: seq<File>)
    requires Merged(r, files).Some?
    ensures Parsed(r, files).Some? && Parsed(r, [Merged(r, files)]).Some?
    ensures Parsed(r, [Merged(r, files)]) == Parsed(r, files) <==> Parsed(r, Filter(files, Odd)) == Some(NOTHING)
  {
    var suites := AllSuites(files);
    MergedSuites(r, files);
    ReportedSplits(r, suites, IsSuite, IsOdd);
    OddSuitesAreOddRoots(files);
    SplitsEvenlyIff(Reported(r, suites).value, Reported(r, Filter(suites, IsSuite)).value,
                    Reported(r, Filter(suites, IsOdd)).value);
  }

  /** In particular for files rooted at a suite or a list of suites, missing and unparsable
      files being skipped by both sides. */
  lemma MergePreserves(r: Reader, files: seq<File>)
    requires Merged(r, files).Some? && forall file <- files :: !Odd(file)
    ensures Parsed(r, [Merged(r, files)]) == Parsed(r, files)
  {
    MergePreservesIff(r, files);
    NoneOdd(files);
  }

  lemma {:induction false} NoneOdd(files: seq<File>)
    requires forall file <- files :: !Odd(file)
    ensures Filter(files, Odd) == []
  {
    if files != [] {
      NoneOdd(files[..|files| - 1]);
    }
  }

  lemma ReportedOne(r: Reader, suite: Element)
    ensures Reported(r, [suite]) == SuiteReport(r, suite)
  {
    ReportedOneMore(r, [], suite);
    assert [] + [suite] == [suite];
    if SuiteReport(r, suite).Some? {
      PlusNothing(SuiteReport(r, suite).value);
    }
  }

  /** Everything a file with an odd root reports is lost by merging it. */
  lemma OddRootIsLost(r: Reader, file: File)
    requires Odd(file) && Merged(r, [file]).Some?
    ensures Parsed(r, [file]) == SuiteReport(r, file.value) && Parsed(r, [Merged(r, [file])]) == Some(NOTHING)
  {
    AllSuitesOfOne(file);
    ReportedOne(r, file.value);
    MergedSuites(r, [file]);
    assert [file.value][..0] == [];
  }

  /** Merging fails exactly where parsing fails or some suite's time is no number. */
  lemma {:induction false} TimesReadIff(r: Reader, suites: seq<Element>)
    ensures TotalTime(r, suites).Some? <==> forall suite <- suites :: SuiteTime(r, suite).Some?
  {
    if suites != [] {
      assert suites == suites[..|suites| - 1] + [suites[|suites| - 1]];
      TimesReadIff(r, suites[..|suites| - 1]);
    }
  }

  lemma MergesIff(r: Reader, files: seq<File>)
    ensures Merged(r, files).Some? <==>
            Parsed(r, files).Some? && forall suite <- AllSuites(files) :: SuiteTime(r, suite).Some?
  {
    TimesReadIff(r, AllSuites(files));
  }

  lemma OneFileMerges(r: Reader, root: Element)
    requires Odd(Some(root)) && SuiteReport(r, root).Some? && SuiteTime(r, root).Some?
    ensures Merged(r, [Some(root)]).Some?
  {
    AllSuitesOfOne(Some(root));
    ReportedOne(r, root);
    MergesIff(r, [Some(root)]);
  }

  lemma AllSuitesOfOne(file: File)
    ensures AllSuites([file]) == Suites(file)
  {
    assert [file][..0] == [];
    assert [] + Suites(file) == Suites(file);
  }

  /** One test case below a root called `report` is counted before the merge and not after. */
  lemma ReportRootIsLost(r: Reader)
    requires r.number("1") == Some(1)
    ensures var file := Some(Element("report", map["tests" := "1"], "", []));
            && Merged(r, [file]).Some? && Parsed(r, [file]) == Some(Report(1, 0, 0, 0, []))
            && Parsed(r, [Merged(r, [file])]) == Some(NOTHING)
  {
    var root := Element("report", map["tests" := "1"], "", []);
    assert SuiteReport(r, root) == Some(Report(1, 0, 0, 0, []));
    OneFileMerges(r, root);
    OddRootIsLost(r, Some(root));
  }

  // ---------------------------------------------------------------- what is added up

  function SumOf(suites: seq<Element>, f: Element -> int): int {
    if suites == [] then 0 else SumOf(suites[..|suites| - 1], f) + f(suites[|suites| - 1])
  }

  function TimeOf(suites: seq<Element>, f: Element -> real): real {
    if suites == [] then 0.0 else TimeOf(suites[..|suites| - 1], f) + f(suites[|suites| - 1])
  }

  /** The number a suite states under a name, 0 without one. */
  function Stated(r: Reader, name: string): Element -> int {
    (e: Element) => if name in e.attributes && r.number(e.attributes[name]).Some? then r.number(e.attributes[name]).value else 0
  }

  function StatedTime(r: Reader): Element -> real {
    (e: Element) =>
      if "time" in e.attributes && e.attributes["time"] != "" && r.time(e.attributes["time"]).Some?
      then r.time(e.attributes["time"]).value else 0.0
  }

  /** Every count the suite states is a number. */
  predicate Readable(r: Reader, suite: Element) {
    forall name | name in ["tests", "failures", "errors", "skipped"] && name in suite.attributes ::
      r.number(suite.attributes[name]).Some?
  }

  lemma SuiteStates(r: Reader, suite: Element)
    ensures SuiteReport(r, suite).Some? <==> Readable(r, suite)
    ensures SuiteReport(r, suite).Some? ==>
              var report := SuiteReport(r, suite).value;
              && report.total == Stated(r, "tests")(suite) && report.failed == Stated(r, "failures")(suite)
              && report.errors == Stated(r, "errors")(suite) && report.skipped == Stated(r, "skipped")(suite)
  {
    var names := ["tests", "failures", "errors", "skipped"];
    assert names[0] in names && names[1] in names && names[2] in names && names[3] in names;
  }

  lemma {:induction false} ReportedAddsUp(r: Reader, suites: seq<Element>)
    ensures Reported(r, suites).Some? <==> forall suite <- suites :: Readable(r, suite)
    ensures Reported(r, suites).Some? ==>
              var report := Reported(r, suites).value;
              && report.total == SumOf(suites, Stated(r, "tests")) && report.failed == SumOf(suites, Stated(r, "failures"))
              && report.errors == SumOf(suites, Stated(r, "errors")) && report.skipped == SumOf(suites, Stated(r, "skipped"))
  {
    if suites != [] {
      assert suites == suites[..|suites| - 1] + [suites[|suites| - 1]];
      ReportedAddsUp(r, suites[..|suites| - 1]);
      SuiteStates(r, suites[|suites| - 1]);
    }
  }

  lemma {:induction false} TimeAddsUp(r: Reader, suites: seq<Element>)
    ensures TotalTime(r, suites).Some? ==> TotalTime(r, suites).value == TimeOf(suites, StatedTime(r))
  {
    if suites != [] {
      TimeAddsUp(r, suites[..|suites| - 1]);
    }
  }

  /** Parsing succeeds exactly if all counts are numbers, and adds up what the suites state. */
  lemma ParsedAddsUp(r: Reader, files: seq<File>)
    ensures Parsed(r, files).Some? <==> forall suite <- AllSuites(files) :: Readable(r, suite)
    ensures Parsed(r, files).Some? ==>
              var suites, report := AllSuites(files), Parsed(r, files).value;
              && report.total == SumOf(suites, Stated(r, "tests")) && report.failed == SumOf(suites, Stated(r, "failures"))
              && report.errors == SumOf(suites, Stated(r, "errors")) && report.skipped == SumOf(suites, Stated(r, "skipped"))
  {
    ReportedAddsUp(r, AllSuites(files));
  }

  /** The merged root holds the suites of all files in order, and states what they add up to. */
  lemma RootTotals(r: Reader, files: seq<File>)
    requires Merged(r, files).Some?
    ensures var root, suites := Merged(r, files).value, AllSuites(files);
            && root.tag == "testsuites" && root.children == suites
            && root.attributes == map[
                 "tests" := r.show(SumOf(suites, Stated(r, "tests"))),
                 "failures" := r.show(SumOf(suites, Stated(r, "failures"))),
                 "errors" := r.show(SumOf(suites, Stated(r, "errors"))),
                 "skipped" := r.show(SumOf(suites, Stated(r, "skipped"))),
                 "time" := r.showTime(TimeOf(suites, StatedTime(r)))]
  {
    ParsedAddsUp(r, files);
    TimeAddsUp(r, AllSuites(files));
  }

  /** The suites of a file more: those directly below a root called `testsuites`, or the root. */
  lemma SuitesOfOneMore(files: seq<File>, root: Element)
    ensures AllSuites(files + [None]) == AllSuites(files)
    ensures root.tag != "testsuites" ==> AllSuites(files + [Some(root)]) == AllSuites(files) + [root]
    ensures root.tag == "testsuites" && (forall e <- root.children :: e.tag == "testsuite") ==>
              AllSuites(files + [Some(root)]) == AllSuites(files) + root.children
  {
    assert (files + [None])[..|files|] == (files + [Some(root)])[..|files|] == files;
    assert AllSuites(files) + [] == AllSuites(files);
    if root.tag == "testsuites" && forall e <- root.children :: e.tag == "testsuite" {
      FilterAll(root.children, IsSuite);
    }
  }

  lemma {:induction false} FirstNamedAt(children: seq<Element>, tag: string, i: nat)
    requires i < |children| && children[i].tag == tag && forall j | 0 <= j < i :: children[j].tag != tag
    ensures FirstNamed(children, tag) == Some(children[i])
  {
    if i > 0 {
      FirstNamedAt(children[1..], tag, i - 1);
    }
  }

  lemma {:induction false} NoneNamed(children: seq<Element>, tag: string)
    requires forall child <- children :: child.tag != tag
    ensures FirstNamed(children, tag) == None
  {
    if children != [] {
      NoneNamed(children[1..], tag);
    }
  }

  /** A test case with a failure is reported with its first one, and one that only has errors
      with the first of these. */
  lemma FaultyCaseIsReported(r: Reader, children: seq<Element>, testcase: Element, i: nat)
    requires testcase.tag == "testcase" && i < |testcase.children|
    requires var tag := testcase.children[i].tag;
             && (forall j | 0 <= j < i :: testcase.children[j].tag != tag)
             && (tag == "failure" || (tag == "error" && forall child <- testcase.children :: child.tag != "failure"))
    ensures var a, fault := testcase.attributes, testcase.children[i];
            Failures(r, children + [testcase]) == Failures(r, children) + [Failure(
              if "name" in a then a["name"] else "unknown", if "classname" in a then a["classname"] else "",
              if "message" in fault.attributes then fault.attributes["message"] else "", r.strip(fault.text))]
  {
    assert (children + [testcase])[..|children|] == children;
    FirstNamedAt(testcase.children, testcase.children[i].tag, i);
    if testcase.children[i].tag == "error" {
      NoneNamed(testcase.children, "failure");
    }
  }

  /** Anything else adds no failure. */
  lemma NothingElseIsReported(r: Reader, children: seq<Element>, child: Element)
    requires child.tag != "testcase" || forall e <- child.children :: e.tag != "failure" && e.tag != "error"
    ensures Failures(r, children + [child]) == Failures(r, children)
  {
    assert (children + [child])[..|children|] == children;
    if child.tag == "testcase" {
      NoneNamed(child.children, "failure");
      NoneNamed(child.children, "error");
    }
  }

  /** The failures are reported suite by suite. */
  lemma {:induction false} FailuresInOrder(r: Reader, suites: seq<Element>, suite: Element)
    requires Reported(r, suites + [suite]).Some?
    ensures Reported(r, suites).Some?
    ensures Reported(r, suites + [suite]).value.failures == Reported(r, suites).value.failures + Failures(r, suite.children)
  {
    ReportedOneMore(r, suites, suite);
  }

  // ---------------------------------------------------------------- the loops

  lemma {:induction false} AllSuitesPrefix(files: seq<File>, i: nat)
    requires i <= |files|
    ensures AllSuites(files[..i]) <= AllSuites(files)
    decreases |files|
  {
    if i == |files| {
      assert files[..i] == files;
    } else {
      assert files[..|files| - 1][..i] == files[..i];
      AllSuitesPrefix(files[..|files| - 1], i);
    }
  }

  lemma {:induction false} ReportedNeedsPrefix(r: Reader, part: seq<Element>, suites: seq<Element>)
    requires part <= suites
    ensures Reported(r, suites).Some? ==> Reported(r, part).Some?
    ensures TotalTime(r, suites).Some? ==> TotalTime(r, part).Some?
    decreases |suites|
  {
    if |part| == |suites| {
      assert part == suites;
    } else {
      ReportedNeedsPrefix(r, part, suites[..|suites| - 1]);
    }
  }

  /** One suite more in either loop. */
  lemma NextSuite(r: Reader, seen: seq<Element>, suites: seq<Element>, j: nat)
    requires j < |suites|
    ensures seen + suites[..j + 1] == (seen + suites[..j]) + [suites[j]]
    ensures Reported(r, seen + suites[..j + 1]).None? ==> Reported(r, seen + suites).None?
    ensures TotalTime(r, seen + suites[..j + 1]).None? ==> TotalTime(r, seen + suites).None?
  {
    assert seen + suites == (seen + suites[..j + 1]) + suites[j + 1..];
    ReportedNeedsPrefix(r, seen + suites[..j + 1], seen + suites);
  }

  /** One file more. */
  lemma NextFile(r: Reader, files: seq<File>, i: nat)
    requires i < |files|
    ensures AllSuites(files[..i + 1]) == AllSuites(files[..i]) + Suites(files[i])
    ensures Reported(r, AllSuites(files[..i + 1])).None? ==> Reported(r, AllSuites(files)).None?
    ensures TotalTime(r, AllSuites(files[..i + 1])).None? ==> TotalTime(r, AllSuites(files)).None?
  {
    assert files[..i + 1][..i] == files[..i];
    AllSuitesPrefix(files, i + 1);
    ReportedNeedsPrefix(r, AllSuites(files[..i + 1]), AllSuites(files));
  }

  method ParseFailures(r: Reader, suite: Element) returns (failures: seq<Failure>)
    ensures failures == Failures(r, suite.children)
  {
    failures := [];
    for i := 0 to |suite.children|
      invariant failures == Failures(r, suite.children[..i])
    {
      assert suite.children[..i + 1][..i] == suite.children[..i];
      var testcase := suite.children[i];
      if testcase.tag == "testcase" {
        var failure, error := FirstNamed(testcase.children, "failure"), FirstNamed(testcase.children, "error");
        var fault := if failure.Some? then failure else error;
        if fault.Some? {
          failures := failures + [FailureOf(r, testcase, fault.value)];
        }
      }
    }
    assert suite.children[..|suite.children|] == suite.children;
  }

  /** The counts of a suite, unless one of them is no number. */
  method CountSuite(r: Reader, suite: Element) returns (counts: Option<Report>)
    ensures counts == Bare(SuiteReport(r, suite))
  {
    var total, failed := Count(r, suite, "tests"), Count(r, suite, "failures");
    var errors, skipped := Count(r, suite, "errors"), Count(r, suite, "skipped");
    if total.None? || failed.None? || errors.None? || skipped.None? {
      return None;
    }
    counts := Some(Report(total.value, failed.value, errors.value, skipped.value, []));
  }

  /** A report without its failures. */
  function Bare(report: Option<Report>): Option<Report> {
    match report
    case None => None
    case Some(x) => Some(x.(failures := []))
  }

  method ParseSuites(r: Reader, sum: Report, suites: seq<Element>, ghost seen: seq<Element>) returns (report: Option<Report>)
    requires Reported(r, seen) == Some(sum)
    ensures report == Reported(r, seen + suites)
  {
    var report' := sum;
    assert seen + suites[..0] == seen;
    for j := 0 to |suites|
      invariant Reported(r, seen + suites[..j]) == Some(report')
    {
      NextSuite(r, seen, suites, j);
      ReportedOneMore(r, seen + suites[..j], suites[j]);
      var counts := CountSuite(r, suites[j]);
      if counts.None? {
        return None;
      }
      var failures := ParseFailures(r, suites[j]);
      report' := Plus(report', counts.value.(failures := failures));
    }
    assert suites[..|suites|] == suites;
    report := Some(report');
  }

  method ParseTestResults(r: Reader, files: seq<File>) returns (report: Option<Report>, passed: int)
    ensures report == Parsed(r, files)
    ensures report.Some? ==>
              passed == report.value.total - report.value.failed - report.value.errors - report.value.skipped
  {
    var sum, parsedAny := NOTHING, false;
    for i := 0 to |files|
      invariant Reported(r, AllSuites(files[..i])) == Some(sum)
      invariant !parsedAny ==> sum == NOTHING
    {
      NextFile(r, files, i);
      if files[i].None? {
        assert AllSuites(files[..i]) + [] == AllSuites(files[..i]);
        continue;
      }
      parsedAny := true;
      var next := ParseSuites(r, sum, Suites(files[i]), AllSuites(files[..i]));
      if next.None? {
        return None, 0;
      }
      sum := next.value;
    }
    assert files[..|files|] == files;
    passed := if parsedAny then sum.total - sum.failed - sum.errors - sum.skipped else 0;
    report := Some(sum);
  }

  /** What the merge adds up over the suites. */
  function Sums(r: Reader, suites: seq<Element>): Option<(Report, real)> {
    Summed(Reported(r, suites), TotalTime(r, suites))
  }

  function Summed(report: Option<Report>, time: Option<real>): Option<(Report, real)> {
    if report.Some? && time.Some? then Some((report.value.(failures := []), time.value)) else None
  }

  lemma TimeOneMore(r: Reader, suites: seq<Element>, suite: Element)
    ensures TotalTime(r, suites + [suite]) == AddBoth(TotalTime(r, suites), SuiteTime(r, suite))
  {
    assert (suites + [suite])[..|suites|] == suites;
  }

  function PlusBoth(a: Option<Report>, b: Option<Report>): Option<Report> {
    if a.Some? && b.Some? then Some(Plus(a.value, b.value)) else None
  }

  function AddBoth(a: Option<real>, b: Option<real>): Option<real> {
    if a.Some? && b.Some? then Some(a.value + b.value) else None
  }

  lemma SummedOneMore(a: Option<Report>, s: Option<real>, b: Option<Report>, t: Option<real>)
    ensures Summed(PlusBoth(a, b), AddBoth(s, t))
            == if Summed(a, s).Some? && Summed(b, t).Some?
               then Some((Plus(Summed(a, s).value.0, Summed(b, t).value.0), Summed(a, s).value.1 + Summed(b, t).value.1)) else None
  {
    var none: seq<Failure> := [];
    assert none + none == none;
  }

  lemma SumsOneMore(r: Reader, suites: seq<Element>, suite: Element)
    ensures var before, next := Sums(r, suites), Summed(SuiteReport(r, suite), SuiteTime(r, suite));
            Sums(r, suites + [suite]) == if before.Some? && next.Some?
              then Some((Plus(before.value.0, next.value.0), before.value.1 + next.value.1)) else None
  {
    ReportedOneMore(r, suites, suite);
    TimeOneMore(r, suites, suite);
    SummedOneMore(Reported(r, suites), TotalTime(r, suites), SuiteReport(r, suite), SuiteTime(r, suite));
  }

  /** One suite more: what it adds, and that a suite that cannot be added fails the whole. */
  lemma SumsNext(r: Reader, seen: seq<Element>, suites: seq<Element>, j: nat)
    requires j < |suites|
    ensures var before, next := Sums(r, seen + suites[..j]), Summed(SuiteReport(r, suites[j]), SuiteTime(r, suites[j]));
            if before.Some? && next.Some?
            then Sums(r, seen + suites[..j + 1]) == Some((Plus(before.value.0, next.value.0), before.value.1 + next.value.1))
            else Sums(r, seen + suites).None?
  {
    NextSuite(r, seen, suites, j);
    SumsOneMore(r, seen + suites[..j], suites[j]);
  }

  /** The counts and the time of a suite, unless one of them is no number. */
  method MeasureSuite(r: Reader, suite: Element) returns (next: Option<(Report, real)>)
    ensures next == Summed(SuiteReport(r, suite), SuiteTime(r, suite))
  {
    var counts := CountSuite(r, suite);
    var seconds := SuiteTime(r, suite);
    if counts.None? || seconds.None? {
      return None;
    }
    next := Some((counts.value, seconds.value));
  }

  method MergeSuites(r: Reader, totals: Report, time: real, suites: seq<Element>, ghost seen: seq<Element>)
    returns (merged: Option<(Report, real)>)
    requires Sums(r, seen) == Some((totals, time))
    ensures merged == Sums(r, seen + suites)
  {
    var totals', time' := totals, time;
    assert seen + suites[..0] == seen;
    for j := 0 to |suites|
      invariant Sums(r, seen + suites[..j]) == Some((totals', time'))
    {
      SumsNext(r, seen, suites, j);
      var next := MeasureSuite(r, suites[j]);
      if next.None? {
        return None;
      }
      totals', time' := Plus(totals', next.value.0), time' + next.value.1;
    }
    assert suites[..|suites|] == suites;
    merged := Some((totals', time'));
  }

  method MergeJunit(r: Reader, files: seq<File>) returns (root: Option<Element>)
    ensures root == Merged(r, files)
  {
    var children: seq<Element>, totals, time := [], NOTHING, 0.0;
    for i := 0 to |files|
      invariant children == AllSuites(files[..i]) && Sums(r, children) == Some((totals, time))
    {
      NextFile(r, files, i);
      if files[i].None? {
        assert children + [] == children;
        continue;
      }
      var merged := MergeSuites(r, totals, time, Suites(files[i]), children);
      children := children + Suites(files[i]);
      if merged.None? {
        return None;
      }
      totals, time := merged.value.0, merged.value.1;
    }
    assert files[..|files|] == files;
    root := Some(Element(TESTSUITES, Totals(r, totals, time), "", children));
  }
}
