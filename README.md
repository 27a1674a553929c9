# testrepository core, modelled in Dafny

This project models the core of testrepository (`testr`), a test runner that keeps a store of
test runs:

- **Test-id bookkeeping and scheduling** (`testrepository/testcommand.py`):
  - attaching profiles to test ids;
  - selecting the ids of one profile;
  - filtering ids by a union of regular expressions;
  - merging the per-profile test listings;
  - reading the profile callouts;
  - `TestCommand.setUp`'s defaulting of concurrency and profiles;
  - the scheduler `partition_tests`. It groups tests, ranks the groups as fully timed, partially timed or of unknown duration, and gives each timed group to the partition with the least (total time, length). Unknown groups are dealt round-robin.
- **The instance pool** `Cache` and the `Instance` value (`testrepository/_computecontext.py`).
- **The test-list text format** `write_list` / `parse_list` (`testrepository/testlist.py`).
- **The repository contract** (`testrepository/repository/__init__.py`). It covers:
  - the known/unknown split of `get_test_times`;
  - runs and their ids;
  - `get_latest_run`;
  - the "current failing" set that each insertion replaces (full run) or updates (partial run);
  - the `RepositoryNotFound` message.
- **The `failing` command** (`testrepository/commands/failing.py`): the `capture` callback's profile merge, and the exit code and output style of `run`.

Modules:

| file | module | what it holds |
|---|---|---|
| `wrappers.dfy` | `Wrappers` | `Option` and `Result` |
| `strings.dfy` | `Strings` | these Python `str` operations, over `seq<char>`: `isspace`, `strip`, `split(sep)`, `sep.join`, `split()`, code-point order, `sorted` of a set, `in` for substrings |
| `testlist.dfy` | `TestList` | `write_list` and `parse_list` |
| `computecontext.dfy` | `ComputeContext` | `Instance`, and the class `Cache` |
| `repository.dfy` | `Repository` | the pure parts of the contract, and the class `Repository` |
| `testcommand.dfy` | `TestCommand` | the profile and listing operations, and the class `TestCommand` with `SetUp` |
| `partition.dfy` | `Partition` | `partition_tests`: the specification `Schedule`, its properties, and the method `PartitionTests` |
| `failing.dfy` | `Failing` | the class `CapturedTests` with `Capture`, and `Run` |

How the model represents the source:

- Code that updates state in place is imperative Dafny:
  - `Cache`, the repository, the `tests` dict of `failing` and the `TestCommand` fields are classes;
  - the loops of `apply_profiles`, `_profile_tests`, `filter_tests`, `list_tests`, `get_test_ids` and `partition_tests` are methods with loop invariants.
- Each such method is proved equal to a specification function, or it states its result outright. The source's promises are proved as lemmas about those functions.
- `partition_tests` keeps `timed_partitions` as three sequences:
  - `totals`, the running time of each partition;
  - `parts`, the partition lists, in creation order;
  - `order`, the indices sorted by (total, length), which stands for the list that Python re-sorts after each group.
- Durations are `real`.
- A Python dict is a `map`. Where the source walks a dict in insertion order, the model takes that order as a sequence: the `test_ids` order, and the first-occurrence order of the groups.
- The regular-expression engine is a parameter `search(pattern, id)`, and the group callback is a parameter `groupOf`.
- Callout and subprocess outputs are parameters: `list_profiles`, `default_profiles`, `test_run_concurrency`, the per-profile test listing, and the CPU count.

## Model

| member | source | states |
|---|---|---|
| TestCommand.ApplyProfiles | testrepository/testcommand.py:146-154 | the keys are exactly the given test ids, and every entry's profiles are duplicate-free and hold exactly the given profiles |
| TestCommand.ProfileTests | testrepository/testcommand.py:157-167 | the result is strictly sorted and holds exactly the ids whose profiles contain the profile |
| TestCommand.Include | testrepository/testcommand.py:506-509 | true exactly when some filter's search matches the id |
| TestCommand.FilterTests | testrepository/testcommand.py:498-513 | no filters gives the input unchanged; otherwise an id is kept iff some filter matches it, and every kept id keeps its metadata |
| TestCommand.ListedUnderMembership | testrepository/testcommand.py:528-535 | a profile is among a test's merged profiles iff it was queried and its listing holds the test |
| TestCommand.OccurrencesOfDistinct | testrepository/testcommand.py:530-535 | in a duplicate-free listing an id occurs once or not at all |
| TestCommand.ListedUnderOfDistinctListings | testrepository/testcommand.py:528-535 | with duplicate-free listings, a test's profiles are the queried profiles that list it, each once, in query order |
| TestCommand.AddListingProfiles | testrepository/testcommand.py:530-535 | merging one profile's listing appends that profile to an id's profiles once per occurrence of the id, and changes nothing else |
| TestCommand.AddListingKeys | testrepository/testcommand.py:530-534 | after merging a listing, an id has an entry iff it had one or is listed, and no entry has empty profiles |
| TestCommand.AppendListing | testrepository/testcommand.py:530-535 | the inner loop of `list_tests` computes the one-listing merge |
| TestCommand.ListTests | testrepository/testcommand.py:518-536 | a template without `$LISTOPT` is rejected; a failing listing reports the first profile whose listing failed; on success the keys are exactly the listed ids, and each id's profiles are the profiles it was listed under, in query order, one per listing |
| TestCommand.DefaultProfiles | testrepository/testcommand.py:194-202 | no callout gives `[]`; every profile is non-empty and free of whitespace |
| TestCommand.ListProfiles | testrepository/testcommand.py:205-210 | the set of the words of the callout output, empty without a callout |
| TestCommand.DefaultProfilesOfOutput | testrepository/testcommand.py:199-210 | output made of names separated by any non-empty whitespace, with any whitespace before and after (one name per line, say), gives back exactly those names, and their set |
| TestCommand.ResolveConcurrency | testrepository/testcommand.py:713-725 | 1 when not parallel; otherwise the first truthy value among the option, the callout and the CPU count, and 1 when none is truthy; never 0, and at least 1 when no source reports a negative number |
| TestCommand.ResolveProfiles | testrepository/testcommand.py:726-731 | the given profiles when non-empty, else the listed profiles when non-empty, else `{"DEFAULT"}`; never empty |
| TestCommand.TestCommand.SetUp | testrepository/testcommand.py:709-734 | sets the concurrency and the profiles as resolved; the default profiles are the callout's when non-empty, else the profiles, duplicate-free |
| Partition.GroupKey | testrepository/testcommand.py:627-632 | the callback's group id when it is non-empty, the test id otherwise |
| Partition.MembersOf | testrepository/testcommand.py:631-633 | a group's members are exactly the ids with that group key; the list is empty iff no id has that key |
| Partition.GroupOrder | testrepository/testcommand.py:626-633 | the groups are distinct, the grouping has exactly them as keys, and every id's group is present |
| Partition.GroupMembers | testrepository/testcommand.py:626-633 | each group lists exactly its ids, in input order, and is non-empty |
| Partition.GroupKeyed | testrepository/testcommand.py:631-633 | every member of a group carries that group's key |
| Partition.GroupBag | testrepository/testcommand.py:631-633 | the groups together hold every given id exactly as often as it was given |
| Partition.GroupTests | testrepository/testcommand.py:626-633 | the grouping loop computes `Group` |
| Partition.KnownTimeNonNegative | testrepository/testcommand.py:645-646 | with non-negative durations a group's known time is non-negative |
| Partition.KnownTimeAllUnknown | testrepository/testcommand.py:644-646 | a group with no known id has known time 0 |
| Partition.KnownTimePositive | testrepository/testcommand.py:644-646 | a known member with positive duration makes the known time positive |
| Partition.RankOf | testrepository/testcommand.py:644-652 | fully timed iff no member is unknown; partially timed iff some member is unknown and the known time is non-zero; unknown iff some member is unknown and the known time is zero |
| Partition.AllUnknownIsUntimed | testrepository/testcommand.py:644-652 | a group whose ids are all new is dealt round-robin |
| Partition.KnownPositiveIsScheduled | testrepository/testcommand.py:644-650 | a group with a positively timed member is never in the round-robin |
| Partition.RankFiles | testrepository/testcommand.py:640-652 | a group is in exactly the list of its rank; no other group is in any list |
| Partition.RankDistinct | testrepository/testcommand.py:640-652 | the three lists are duplicate-free, and each queued duration is the group's known time |
| Partition.RankBag | testrepository/testcommand.py:640-652 | the ranked lists together hold exactly the tests of the groups |
| Partition.RankGroups | testrepository/testcommand.py:640-652 | the ranking loop computes `RankAll` |
| Partition.SortBySorted | testrepository/testcommand.py:660-661 | sorting by a total preorder gives a sorted permutation |
| Partition.ByDuration | testrepository/testcommand.py:660-661 | the queue is sorted by descending duration and is a permutation of the groups |
| Partition.SortKeys | testrepository/testcommand.py:660-661 | sorting keeps the set of groups and their distinctness |
| Partition.SortBag | testrepository/testcommand.py:660-661 | sorting keeps the tests of the queue |
| Partition.InitialLoads | testrepository/testcommand.py:620-621 | `concurrency` empty partitions with total 0.0 |
| Partition.LeastLoadedFirst | testrepository/testcommand.py:663-665 | the partition that gets the next group has the least (total, length) of all |
| Partition.Place | testrepository/testcommand.py:663-665 | one placement keeps the order a sorted permutation of the partition indices |
| Partition.PlaceFields | testrepository/testcommand.py:663-665 | the chosen partition's total grows by the duration, its list by the group's tests, and the order is re-sorted on the new loads |
| Partition.PlaceBag | testrepository/testcommand.py:664 | one placement adds exactly the group's tests |
| Partition.ConsumeBag | testrepository/testcommand.py:662-665 | consuming a queue adds exactly the queued groups' tests |
| Partition.ConsumeBalanced | testrepository/testcommand.py:662-665 | with durations in [0, b], totals that were within b of each other stay within b |
| Partition.ConsumeZeroDurations | testrepository/testcommand.py:662-665 | zero-duration groups of at most b tests each keep the partition lengths within b of each other |
| Partition.PlaceGroup | testrepository/testcommand.py:663-665 | one iteration of `consume_queue` computes `Place` |
| Partition.ConsumeQueue | testrepository/testcommand.py:662-665 | the `consume_queue` loop computes `Consume` |
| Partition.PlaceOwned | testrepository/testcommand.py:663-665 | a group placed for the first time goes, whole, to the chosen partition |
| Partition.ConsumeOwned | testrepository/testcommand.py:662-667 | a queue of distinct new groups never splits a group over partitions |
| Partition.Deal | testrepository/testcommand.py:670-671 | the round-robin deal keeps the number of partitions |
| Partition.DealBag | testrepository/testcommand.py:670-671 | the deal adds exactly the unknown groups' tests |
| Partition.DealOwned | testrepository/testcommand.py:670-671 | dealing distinct new groups never splits a group |
| Partition.DealPlaces | testrepository/testcommand.py:670-671 | the k-th unknown group lands in partition `k % concurrency`, and dealing removes nothing |
| Partition.DealGroups | testrepository/testcommand.py:670-671 | the round-robin loop computes `Deal` |
| Partition.ScheduleBag | testrepository/testcommand.py:617-672 | exactly `concurrency` partitions, which together hold every given test exactly as often as it was given |
| Partition.ScheduleUnion | testrepository/testcommand.py:617-618 | the union of the partitions is the set of the given ids |
| Partition.ScheduleDistinct | testrepository/testcommand.py:617-618 | for duplicate-free input every partition is duplicate-free |
| Partition.ScheduleKeepsGroups | testrepository/testcommand.py:626-671 | tests with the same group key are always in the same partition; in particular no test is in two partitions |
| Partition.ScheduleDealsUnknown | testrepository/testcommand.py:666-671 | every test of the k-th unknown group is in partition `k % concurrency` |
| Partition.ScheduleZeroDurations | testrepository/testcommand.py:656-667 | when every test is recorded at zero duration and no group has more than b tests, partition lengths differ by at most b |
| Partition.ZeroDurationsSplit | testrepository/tests/test_testcommand.py:421-442 | `zero1` and `zero2`, both timed at 0.0, split over two partitions land one in each |
| Partition.PartitionTests | testrepository/testcommand.py:609-672 | computes `Schedule`: `concurrency` partitions, the given tests as a multiset, the union is the set of ids, duplicate-free input gives duplicate-free partitions, and groups are never split |
| ComputeContext.MakeInstance | testrepository/_computecontext.py:24-30 | accepted iff both arguments are None or text; otherwise the first bad argument is reported |
| ComputeContext.MakeInstanceOfFields | testrepository/_computecontext.py:24-30 | an instance's own fields rebuild it |
| ComputeContext.TextIsAccepted | testrepository/_computecontext.py:27-30 | text arguments are always accepted |
| ComputeContext.Cache.Size | testrepository/_computecontext.py:77-82 | the number of available plus the number of allocated instances of the profile, for any cache; while no instance is both, the number of distinct instances |
| ComputeContext.Cache.constructor | testrepository/_computecontext.py:36-38 | a new cache has no available and no allocated instances |
| ComputeContext.Cache.Add | testrepository/_computecontext.py:40-42 | the instance joins the available set of its profile and nothing else changes; for an instance that was not allocated, no instance becomes both available and allocated, and the size grows by one unless the instance was already available |
| ComputeContext.Cache.Allocate | testrepository/_computecontext.py:44-52 | an empty available set raises and changes nothing; otherwise one available instance moves to allocated and is returned, and the size is unchanged |
| ComputeContext.Cache.Release | testrepository/_computecontext.py:62-68 | an instance that is not allocated raises; otherwise it moves back to available, and the size is unchanged |
| ComputeContext.Cache.Remove | testrepository/_computecontext.py:70-75 | an instance that is not allocated raises; otherwise it is forgotten, and the size drops by one |
| ComputeContext.Cache.All | testrepository/_computecontext.py:54-60 | every instance held, available or allocated, in any profile |
| ComputeContext.SmokeScenario | testrepository/tests/test__compute_context.py:47-60 | the add, allocate, release and remove calls of the smoke test yield sizes 1, 1, 0 |
| TestList.WriteListTerminates | testrepository/testlist.py:23-29 | the output is each id followed by a newline; the empty list gives the empty string |
| TestList.WriteListExample | testrepository/testlist.py:29 | `["failing", "alsofailing"]` is written as `"failing\nalsofailing\n"` |
| TestList.ParseList | testrepository/testlist.py:32-34 | no entry is empty, has surrounding whitespace or holds a newline |
| TestList.StrippedEntriesOfIds | testrepository/testlist.py:34 | well-formed ids survive stripping and filtering unchanged |
| TestList.RoundTrip | testrepository/testlist.py:23-34 | `parse_list(write_list(ids)) == ids` for non-empty, newline-free, stripped ids |
| TestList.ParseWriteParse | testrepository/testlist.py:23-34 | whatever `parse_list` returns is written and read back unchanged |
| Repository.GetTestTimes | testrepository/repository/__init__.py:134-145 | the known times are those recorded; an id is unknown iff queried and unrecorded; known and unknown partition the queried ids |
| Repository.LatestStatusWins | testrepository/tests/test_repository.py:296-338 | a key is failing after a run iff its last success-or-failure record is a failure; undecided keys keep their entry |
| Repository.FullRunReplaces | testrepository/tests/test_repository.py:296-315 | a full run's failing set is the run applied to the empty set, whatever failed before; a key is failing after it iff its latest decisive record in the run failed |
| Repository.PartialRunKeepsUnmentioned | testrepository/tests/test_repository.py:317-338 | a partial run keeps the failures it does not mention |
| Repository.PartialRunAddsAndRemoves | testrepository/tests/test_repository.py:606-692 | a partial run adds the failures whose latest record failed and removes those whose latest record passed |
| Repository.NonProfileTagsIgnored | testrepository/tests/test_repository.py:694-741 | two failures of one id that differ only in non-profile tags share one entry, and the later wins |
| Repository.NotFoundMessage | testrepository/repository/__init__.py:212-218 | the message is the fixed prefix, the url and the fixed suffix |
| Repository.NotFoundMessageNamesUrl | testrepository/repository/__init__.py:212-218 | different urls give different messages |
| Repository.InserterProfiles | testrepository/repository/__init__.py:95-98 | missing profiles become the empty set |
| Repository.Repository.LatestId | testrepository/repository/__init__.py:158-160 | raises on an empty repository, else the id of the last run |
| Repository.Repository.GetTestRun | testrepository/repository/__init__.py:126-132 | the run with that id, or an error naming the id |
| Repository.Repository.GetLatestRun | testrepository/repository/__init__.py:119-124 | the latest run, raising on an empty repository |
| Repository.Repository.GetFailing | testrepository/repository/__init__.py:70-75 | exactly the records of the current failing set |
| Repository.Repository.Insert | testrepository/repository/__init__.py:63-98 | the run is stored under the next id, the count grows by one, the new id is the latest, and the failing set is replaced or updated |
| Repository.Repository.GetTestIds | testrepository/repository/__init__.py:162-179 | the ids of the run's tests in order, or the missing-run error |
| Repository.PartialUpdateScenario | testrepository/tests/test_repository.py:606-647 | failures in p1 and p2, then a partial run where p2 passes and p3 fails, leave exactly p1 and p3 failing |
| Failing.CapturedTests.Capture | testrepository/commands/failing.py:63-72 | the entry becomes the sorted, duplicate-free union of its previous profiles and the known profiles among the tags; a new id starts empty; other entries are untouched |
| Failing.CaptureOnlyGrows | testrepository/commands/failing.py:70-72 | profiles recorded for a test are never dropped |
| Failing.OutputStyle | testrepository/commands/failing.py:99-104 | JSON iff `--json`; a list iff `--list` without `--json`; no listing otherwise |
| Failing.Run | testrepository/commands/failing.py:80-105 | the exit code is 0 or 1; with `--subunit`, the stream and exit code 0; otherwise exit code 1 iff the summary is unsuccessful, with the listing style or the results view |
| Strings.Strip | testrepository/testlist.py:34 | the result is one contiguous piece of the input with only whitespace before and after it, has no surrounding whitespace itself, and is the input when that has none |
| Strings.LeadingSpace | testrepository/testlist.py:34 | the whitespace run at the start of a string: all whitespace, followed by a non-whitespace character or the end |
| Strings.TrailingSpace | testrepository/testlist.py:34 | the whitespace run at the end of a string: all whitespace, preceded by a non-whitespace character or the start |
| Strings.SplitJoin | testrepository/testlist.py:29-34 | splitting a join on a separator that no part holds gives back the parts |
| Strings.JoinSplit | testrepository/testlist.py:34 | joining the pieces of a split gives back the text |
| Strings.WordsJoin | testrepository/testcommand.py:202 | the words of space-joined names are those names |
| Strings.WordsOfSpace | testrepository/testcommand.py:202 | whitespace in front of a text does not change its words |
| Strings.WordsJoinTrail | testrepository/testcommand.py:202 | the words of names joined by any non-empty whitespace and followed by whitespace are those names |
| Strings.WordsJoinWith | testrepository/testcommand.py:202 | the same with any whitespace in front as well |
| Strings.SortedStrings | testrepository/testcommand.py:166 | a strictly sorted list holding exactly the set's strings |
| Strings.ListOf | testrepository/testcommand.py:153 | `list(set)`: duplicate-free, with exactly the set's elements |

## Left out

- Subprocess and callout plumbing is left out, because these spawn shell processes. Its outputs are parameters of the model. The plumbing is:
  - `_callout` and `_callout_concurrency`;
  - `_list_tests` and `parse_enumeration`;
  - `RunInInstance`, `RunTestProcess`, `CallWhenProcFinishes`;
  - `obtain_instance`, `_dispose_instances`, and the instance cache that `setUp` creates.
- A callout that exits non-zero raises `ValueError` in the source. The model has no error for this, because the callout results are given values. The exception is the test listing, where `ListingFailed` names the profile; the listing's exit code is not carried.
- `int(out.strip())` of the concurrency callout is a parameter `Option<int>`, so a parse failure is not modelled. `local_concurrency()` is also a parameter; its `None` when the CPU count is unavailable is a `None` given to `SetUp`.
- Configuration reading (`get_parser`), list-file creation, shell-variable expansion and all stream I/O are file and process I/O.
- The regular-expression engine is an abstract `search`, and `re.compile` errors are not modelled.
- Python dict iteration order is taken as the order of the input sequence.
- `partition_tests` with `concurrency` below 1 is excluded by a precondition. Python then raises `IndexError` when there is a timed or partially timed group, and otherwise returns no partitions, dropping the unknown groups. The caller passes the concurrency that `setUp` resolves. That value is never 0, and it is at least 1 when no source reports a negative number (both in the contract of `ResolveConcurrency`).
- Partition.ByDuration: Python sorts a dict's items, and ties among equal durations follow dict order. The model fixes the ties by a stable insertion sort over the ranking order. The properties proved about `Schedule` hold for any input order, but stability itself is not proved.
- Durations are `real`: floating-point rounding is not modelled, so the order in which the known times are summed does not matter.
- `timed_tests[test_id]` cannot raise `KeyError` in the model, because every id that is not unknown is recorded.
- ComputeContext.Cache.Add: the source does not check whether the instance is already allocated. The model's disjointness and size promises are therefore conditional on that.
- `Cache.all` calls `reduce` without importing it. The model gives the intended union of all instances.
- `Instance` validation is over a small argument type (None, text, bytes, number), not over arbitrary Python values.
- Repository: in the failing set, statuses other than success and failure (skip, exists, ...) leave the set unchanged. Per-test timing is not stored with a run.
- Repository.Insert: the deprecated `TypeError` fallback of `get_inserter`, for implementations without profile support, is not modelled.
- Repository.Repository.GetTestIds: running the stored test through `StreamToDict` is replaced by reading the run's records.
- `parse_list` and `write_list` take and give text after UTF-8 decoding. The byte encoding is not modelled.
- Failing.Run: the summary's success is a parameter, because it comes from running the stored case through the result objects. `_make_result`'s non-listing branch (`ui.make_result`) and the formatting done by `output_tests_meta` are left out.
- `TestListingFixture.run_tests` and the rest of the fixture are not part of this model.
