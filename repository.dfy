/**
 * The repository contract: timing lookups split into known and unknown ids, stored runs with
 * their count and latest id, and the "current failing" set that each insertion replaces or updates.
 */
module Repository {
  import opened Wrappers

  type TestId = string
  type Profile = string

  /** What `get_test_times` returns: recorded durations, and the queried ids without one. */
  datatype TestTimes = TestTimes(known: map<TestId, real>, unknown: set<TestId>)

  /** `get_test_times(test_ids)`, where `recorded` is what the implementation's `_get_test_times`
      answered for those ids. */
  function GetTestTimes(testIds: set<TestId>, recorded: map<TestId, real>): (r: TestTimes)
    ensures r.known == recorded
    ensures forall t :: t in r.unknown <==> t in testIds && t !in recorded
    ensures recorded.Keys <= testIds ==> r.known.Keys !! r.unknown && r.known.Keys + r.unknown == testIds
    ensures recorded == map[] ==> r.unknown == testIds
  {
    TestTimes(recorded, testIds - recorded.Keys)
  }

  /** The outcome of one test in a stored run. `Other` stands for the statuses the contract does
      not tie to the failing set (skip, exists, ...). */
  datatype Status = Success | Fail | Other

  /** A completed test as the stream delivers it: its id, its tags and its final status. */
  datatype TestRecord = TestRecord(id: TestId, tags: set<string>, status: Status)

  /** Failing entries are told apart by test id and by those tags that are also profiles. */
  datatype FailKey = FailKey(id: TestId, profiles: set<Profile>)

  function KeyOf(r: TestRecord, profiles: set<Profile>): FailKey {
    FailKey(r.id, r.tags * profiles)
  }

  type Failing = map<FailKey, TestRecord>

  /** One record's effect: a failure is recorded under its key, a success clears its key. */
  function ApplyRecord(failing: Failing, profiles: set<Profile>, r: TestRecord): Failing {
    match r.status
    case Fail => failing[KeyOf(r, profiles) := r]
    case Success => failing - {KeyOf(r, profiles)}
    case Other => failing
  }

  /** The records of a run applied in order. */
  function ApplyRun(failing: Failing, profiles: set<Profile>, run: seq<TestRecord>): Failing
    decreases |run|
  {
    if run == [] then failing
    else ApplyRecord(ApplyRun(failing, profiles, run[..|run| - 1]), profiles, run[|run| - 1])
  }

  /** A full run rebuilds the failing set from nothing; a partial run updates the current one. */
  function UpdateFailing(failing: Failing, partial: bool, profiles: set<Profile>, run: seq<TestRecord>): Failing {
    ApplyRun(if partial then failing else map[], profiles, run)
  }

  /** The position of the last record of `run` with key `k` and a success or failure status. */
  function LastDecisive(run: seq<TestRecord>, profiles: set<Profile>, k: FailKey): (r: Option<nat>)
    ensures r.Some? ==> r.value < |run| && KeyOf(run[r.value], profiles) == k && run[r.value].status != Other
    ensures r.Some? ==> forall j :: r.value < j < |run| ==> KeyOf(run[j], profiles) != k || run[j].status == Other
    ensures r.None? ==> forall j :: 0 <= j < |run| ==> KeyOf(run[j], profiles) != k || run[j].status == Other
    decreases |run|
  {
    if run == [] then None
    else
      var last := run[|run| - 1];
      if KeyOf(last, profiles) == k && last.status != Other then Some(|run| - 1)
      else LastDecisive(run[..|run| - 1], profiles, k)
  }

  /** The latest status for a key wins: a key is failing after a run iff its last success-or-failure
      record in the run is a failure, holding that record; keys the run does not decide keep their
      previous entry. */
  lemma {:induction false} LatestStatusWins(base: Failing, profiles: set<Profile>, run: seq<TestRecord>, k: FailKey)
    ensures var f := ApplyRun(base, profiles, run);
      match LastDecisive(run, profiles, k)
      case None => (k in f <==> k in base) && (k in base ==> f[k] == base[k])
      case Some(i) => (k in f <==> run[i].status == Fail) && (k in f ==> f[k] == run[i])
    decreases |run|
  {
    if run != [] {
      LatestStatusWins(base, profiles, run[..|run| - 1], k);
    }
  }

  /** A full run replaces the failing set: whatever was failing before, it is the run applied to
      the empty set, and it keeps exactly the keys whose latest record failed. */
  lemma FullRunReplaces(before: Failing, profiles: set<Profile>, run: seq<TestRecord>, k: FailKey)
    ensures UpdateFailing(before, false, profiles, run) == ApplyRun(map[], profiles, run)
    ensures var f := UpdateFailing(before, false, profiles, run);
      k in f <==> exists i :: 0 <= i < |run| && run[i].status == Fail && KeyOf(run[i], profiles) == k &&
                             LastDecisive(run, profiles, k) == Some(i)
  {
    LatestStatusWins(map[], profiles, run, k);
  }

  /** A partial run keeps the failures it does not mention. */
  lemma PartialRunKeepsUnmentioned(before: Failing, profiles: set<Profile>, run: seq<TestRecord>, k: FailKey)
    requires k in before
    requires forall j :: 0 <= j < |run| ==> KeyOf(run[j], profiles) != k
    ensures var f := UpdateFailing(before, true, profiles, run); k in f && f[k] == before[k]
  {
    LatestStatusWins(before, profiles, run, k);
  }

  /** A partial run adds the failures whose latest record failed, and removes those whose latest
      record passed. */
  lemma PartialRunAddsAndRemoves(before: Failing, profiles: set<Profile>, run: seq<TestRecord>, i: nat)
    requires i < |run| && run[i].status != Other
    requires forall j :: i < j < |run| ==> KeyOf(run[j], profiles) != KeyOf(run[i], profiles)
    ensures var f := UpdateFailing(before, true, profiles, run);
      (run[i].status == Fail ==> KeyOf(run[i], profiles) in f && f[KeyOf(run[i], profiles)] == run[i]) &&
      (run[i].status == Success ==> KeyOf(run[i], profiles) !in f)
  {
    var k := KeyOf(run[i], profiles);
    LatestStatusWins(before, profiles, run, k);
    assert LastDecisive(run, profiles, k) == Some(i);
  }

  /** Tags that are not profiles do not separate failing entries: the later record replaces the
      earlier one. */
  lemma NonProfileTagsIgnored(profiles: set<Profile>, first: TestRecord, second: TestRecord)
    requires first.id == second.id && first.tags * profiles == second.tags * profiles
    requires first.status == Fail && second.status == Fail
    ensures ApplyRun(map[], profiles, [first, second]) == map[KeyOf(second, profiles) := second]
  {
    var run := [first, second];
    assert run[..1] == [first] && [first][..0] == [];
    assert KeyOf(first, profiles) == KeyOf(second, profiles);
    assert ApplyRun(map[], profiles, run[..1]) == map[KeyOf(first, profiles) := first];
  }

  datatype Error =
    | NoTestsInRepository        // KeyError from `latest_id` on an empty repository
    | NoSuchRun(runId: int)      // KeyError from `get_test_run`
    | RepositoryNotFound(url: string)

  const NotFoundPrefix := "No repository found in "
  const NotFoundSuffix := ". Create one by running \"testr init\"."

  /** The text of a `RepositoryNotFound` error. */
  function NotFoundMessage(url: string): (msg: string)
    ensures |msg| == |NotFoundPrefix| + |url| + |NotFoundSuffix|
    ensures msg[..|NotFoundPrefix|] == NotFoundPrefix
    ensures msg[|NotFoundPrefix|..|NotFoundPrefix| + |url|] == url
    ensures msg[|NotFoundPrefix| + |url|..] == NotFoundSuffix
  {
    NotFoundPrefix + url + NotFoundSuffix
  }

  /** The url can be read back from the message, so different urls give different messages. */
  lemma NotFoundMessageNamesUrl(u1: string, u2: string)
    requires NotFoundMessage(u1) == NotFoundMessage(u2)
    ensures u1 == u2
  {
    var m := NotFoundMessage(u1);
    assert |u1| == |u2|;
    assert u1 == m[|NotFoundPrefix|..|NotFoundPrefix| + |u1|];
  }

  /** `get_inserter` treats missing profiles as the empty set. */
  function InserterProfiles(profiles: Option<set<Profile>>): (r: set<Profile>)
    ensures profiles.None? ==> r == {}
    ensures profiles.Some? ==> r == profiles.value
  {
    profiles.GetOr({})
  }

  /** A repository: the stored runs (a run's id is its position) and the current failing set. */
  class Repository {
    var runs: seq<seq<TestRecord>>
    var failing: Failing

    constructor ()
      ensures runs == [] && failing == map[]
    {
      runs, failing := [], map[];
    }

    /** `count()`. */
    function Count(): nat
      reads this
    {
      |runs|
    }

    /** `latest_id()`: the id of the most recent run; raises on an empty repository. */
    function LatestId(): (r: Result<nat, Error>)
      reads this
      ensures r.Err? <==> runs == []
      ensures r.Err? ==> r.error == NoTestsInRepository
      ensures r.Ok? ==> r.value == |runs| - 1
    {
      if runs == [] then Err(NoTestsInRepository) else Ok(|runs| - 1)
    }

    /** `get_test_run(run_id)`. */
    function GetTestRun(runId: int): (r: Result<seq<TestRecord>, Error>)
      reads this
      ensures r.Ok? <==> 0 <= runId < |runs|
      ensures r.Ok? ==> r.value == runs[runId]
      ensures r.Err? ==> r.error == NoSuchRun(runId)
    {
      if 0 <= runId < |runs| then Ok(runs[runId]) else Err(NoSuchRun(runId))
    }

    /** `get_latest_run()`: `get_test_run(latest_id())`, raising KeyError on an empty repository. */
    function GetLatestRun(): (r: Result<seq<TestRecord>, Error>)
      reads this
      ensures r.Err? <==> runs == []
      ensures r.Err? ==> r.error == NoTestsInRepository
      ensures r.Ok? ==> r.value == runs[|runs| - 1]
    {
      match LatestId()
      case Err(e) => Err(e)
      case Ok(id) => GetTestRun(id)
    }

    /** `get_failing()`: the records of the tests currently failing. */
    function GetFailing(): (r: set<TestRecord>)
      reads this
      ensures forall k :: k in failing ==> failing[k] in r
      ensures forall x :: x in r ==> exists k :: k in failing && failing[k] == x
    {
      failing.Values
    }

    /** A completed insertion through `get_inserter(partial, profiles)`: the run is stored under the
        next id, which becomes the latest, and the failing set is replaced or updated. */
    method Insert(partial: bool, profiles: Option<set<Profile>>, run: seq<TestRecord>) returns (id: nat)
      modifies this
      ensures runs == old(runs) + [run]
      ensures id == old(Count()) && Count() == old(Count()) + 1
      ensures LatestId() == Ok(id)
      ensures failing == UpdateFailing(old(failing), partial, InserterProfiles(profiles), run)
    {
      id := |runs|;
      runs := runs + [run];
      failing := UpdateFailing(failing, partial, InserterProfiles(profiles), run);
    }

    /** `get_test_ids(run_id)`: the ids of the run's tests, in the order the run reports them. */
    method GetTestIds(runId: int) returns (r: Result<seq<TestId>, Error>)
      ensures r.Ok? <==> 0 <= runId < |runs|
      ensures r.Err? ==> r.error == NoSuchRun(runId)
      ensures r.Ok? ==> |r.value| == |runs[runId]|
      ensures r.Ok? ==> forall i :: 0 <= i < |r.value| ==> r.value[i] == runs[runId][i].id
    {
      var run := GetTestRun(runId);
      if run.Err? {
        return Err(run.error);
      }
      var ids: seq<TestId> := [];
      var i := 0;
      while i < |run.value|
        invariant 0 <= i <= |run.value|
        invariant |ids| == i
        invariant forall j :: 0 <= j < i ==> ids[j] == run.value[j].id
      {
        ids := ids + [run.value[i].id];
        i := i + 1;
      }
      r := Ok(ids);
    }
  }

  /** The source's partial-update scenario: failures in p1 and p2, then a partial run where p2
      passes and p3 fails, leaves p1 and p3 failing. */
  method PartialUpdateScenario() returns (failingAfter: Failing)
    ensures failingAfter.Keys == {FailKey("testid", {"p1"}), FailKey("testid", {"p3"})}
  {
    var repo := new Repository();
    var ps := {"p1", "p2", "p3"};
    var k1, k2, k3 := FailKey("testid", {"p1"}), FailKey("testid", {"p2"}), FailKey("testid", {"p3"});
    var r1 := TestRecord("testid", {"p1"}, Fail);
    var r2 := TestRecord("testid", {"p2"}, Fail);
    assert KeyOf(r1, ps) == k1 && KeyOf(r2, ps) == k2;
    assert [r1, r2][..1] == [r1] && [r1][..0] == [];
    assert ApplyRun(map[], ps, [r1]) == map[k1 := r1];
    assert ApplyRun(map[], ps, [r1, r2]) == map[k1 := r1, k2 := r2];
    var first := repo.Insert(false, Some(ps), [r1, r2]);
    assert InserterProfiles(Some(ps)) == ps;
    assert repo.failing == map[k1 := r1, k2 := r2];
    var s1 := TestRecord("testid", {"p2"}, Success);
    var s2 := TestRecord("testid", {"p3"}, Fail);
    assert KeyOf(s1, ps) == k2 && KeyOf(s2, ps) == k3;
    assert [s1, s2][..1] == [s1] && [s1][..0] == [];
    assert ApplyRun(map[k1 := r1, k2 := r2], ps, [s1]) == map[k1 := r1];
    assert ApplyRun(map[k1 := r1, k2 := r2], ps, [s1, s2]) == map[k1 := r1, k3 := s2];
    var second := repo.Insert(true, Some(ps), [s1, s2]);
    assert repo.failing == map[k1 := r1, k3 := s2];
    failingAfter := repo.failing;
  }
}
