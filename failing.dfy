/**
 * The `failing` command: the `capture` callback that merges each failing test's profiles into
 * the shared `tests` dict, and the choice of exit code and output style in `run`.
 */
module Failing {
  import opened Wrappers
  import opened Strings

  type TestId = string
  type Profile = string

  /** The part of a test dict that `capture` reads. */
  datatype TestDict = TestDict(id: TestId, tags: set<string>)

  /** The `tests` dict that `run` creates empty and `capture` fills: test id to sorted profiles. */
  class CapturedTests {
    const profiles: set<Profile>
    var tests: map<TestId, seq<Profile>>

    /** `run` starts from `tests = {}`; `profiles` are the test command's profiles. */
    constructor (profiles: set<Profile>)
      ensures this.profiles == profiles && tests == map[]
      ensures OnlyKnownProfiles() && SortedEntries()
    {
      this.profiles := profiles;
      tests := map[];
    }

    /** Every recorded profile is one of the known profiles. */
    ghost predicate OnlyKnownProfiles()
      reads this
    {
      forall t :: t in tests ==> forall p :: p in tests[t] ==> p in profiles
    }

    /** Every entry is sorted and free of duplicates. */
    ghost predicate SortedEntries()
      reads this
    {
      forall t :: t in tests ==> StrictlySorted(tests[t])
    }

    /** `capture(test_dict)`: a new id starts with no profiles; the entry becomes the sorted union
        of what it had and the known profiles among the dict's tags. Other entries are untouched. */
    method Capture(d: TestDict)
      modifies this
      ensures tests.Keys == old(tests).Keys + {d.id}
      ensures forall t :: t in old(tests) && t != d.id ==> tests[t] == old(tests)[t]
      ensures StrictlySorted(tests[d.id])
      ensures forall p :: p in tests[d.id] <==>
        p in profiles * d.tags || (d.id in old(tests) && p in old(tests)[d.id])
      ensures d.id !in old(tests) ==> forall p :: p in tests[d.id] <==> p in profiles * d.tags
      ensures old(OnlyKnownProfiles()) ==> OnlyKnownProfiles()
      ensures old(SortedEntries()) ==> SortedEntries()
    {
      var prior: seq<Profile> := if d.id in tests then tests[d.id] else [];
      var testProfiles := profiles * d.tags;
      var merged := SortedStrings(testProfiles + set p | p in prior);
      tests := tests[d.id := merged];
    }
  }

  /** Profiles recorded for a test are never dropped by later captures. */
  method CaptureOnlyGrows(c: CapturedTests, d: TestDict, t: TestId)
    requires t in c.tests
    modifies c
    ensures t in c.tests && forall p :: p in old(c.tests)[t] ==> p in c.tests[t]
  {
    c.Capture(d);
  }

  /** The command-line switches of `failing`. */
  datatype Options = Options(subunit: bool, list: bool, json: bool)

  datatype Style = ListStyle | JsonStyle

  /** What the command shows. */
  datatype Shown =
    | SubunitStream       // the failing run's subunit stream
    | Results             // the ui's results view with its summary
    | TestsMeta(style: Style)

  datatype Outcome = Outcome(exitCode: int, shown: Shown)

  /** The style handed to `output_tests_meta`: JSON when `--json` is set, a plain list for `--list`
      alone, and no test listing otherwise. */
  function OutputStyle(o: Options): (r: Option<Style>)
    ensures r == Some(JsonStyle) <==> o.json
    ensures r == Some(ListStyle) <==> o.list && !o.json
    ensures r == None <==> !o.list && !o.json
  {
    if o.list || o.json then Some(if o.json then JsonStyle else ListStyle) else None
  }

  /** `run`, given whether the summary of the failing run was successful: with `--subunit` the stream
      is shown and the exit code is 0 whatever failed; otherwise the code is 1 exactly when the
      summary is unsuccessful. */
  function Run(o: Options, successful: bool): (r: Outcome)
    ensures r.exitCode in {0, 1}
    ensures o.subunit ==> r == Outcome(0, SubunitStream)
    ensures !o.subunit ==> (r.exitCode == 1 <==> !successful) && (r.exitCode == 0 <==> successful)
    ensures !o.subunit && (o.list || o.json) ==> r.shown == TestsMeta(OutputStyle(o).value)
    ensures !o.subunit && !o.list && !o.json ==> r.shown == Results
  {
    if o.subunit then Outcome(0, SubunitStream)
    else
      var code := if !successful then 1 else 0;
      match OutputStyle(o)
      case Some(style) => Outcome(code, TestsMeta(style))
      case None => Outcome(code, Results)
  }
}
