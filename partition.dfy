/**
 * `partition_tests`: splits test ids into `concurrency` partitions of roughly equal expected run
 * time. Tests are grouped, groups are ranked by how much of their time is known, timed groups are
 * placed greedily on the least loaded partition, and groups of unknown time are dealt round-robin.
 */
module Partition {
  import opened Wrappers
  import Repository
  import TestCommand

  type TestId = string
  type GroupId = string

  /** `group_callback(test_id) or test_id`: no group id, or an empty one, puts a test in a group of
      its own named after it. */
  function GroupKey(groupOf: TestId -> Option<GroupId>, t: TestId): (g: GroupId)
    ensures groupOf(t) == None || groupOf(t) == Some("") ==> g == t
    ensures groupOf(t).Some? && groupOf(t).value != "" ==> g == groupOf(t).value
  {
    match groupOf(t)
    case Some(g) => if g != "" then g else t
    case None => t
  }

  /** The `group_ids` dict: group ids in first-occurrence order and each group's tests. */
  datatype Grouping = Grouping(order: seq<GroupId>, members: map<GroupId, seq<TestId>>)

  /** What the grouping loop builds from `ids`. */
  function Group(ids: seq<TestId>, groupOf: TestId -> Option<GroupId>): Grouping {
    if ids == [] then Grouping([], map[])
    else
      var g := Group(ids[..|ids| - 1], groupOf);
      var t := ids[|ids| - 1];
      var k := GroupKey(groupOf, t);
      if k in g.members then Grouping(g.order, g.members[k := g.members[k] + [t]])
      else Grouping(g.order + [k], g.members[k := [t]])
  }

  /** The ids of group `k`, in input order. */
  function MembersOf(ids: seq<TestId>, groupOf: TestId -> Option<GroupId>, k: GroupId): (r: seq<TestId>)
    ensures forall t :: t in r <==> t in ids && GroupKey(groupOf, t) == k
    ensures r == [] <==> forall t :: t in ids ==> GroupKey(groupOf, t) != k
  {
    if ids == [] then []
    else
      var t := ids[|ids| - 1];
      MembersOf(ids[..|ids| - 1], groupOf, k) + (if GroupKey(groupOf, t) == k then [t] else [])
  }

  /** Every member of a group carries that group's key. */
  ghost predicate KeyedBy(m: map<GroupId, seq<TestId>>, groupOf: TestId -> Option<GroupId>) {
    forall g, t :: g in m && t in m[g] ==> GroupKey(groupOf, t) == g
  }

  /** The grouping lists each group once, in first-occurrence order, and has a group for every id. */
  lemma {:induction false} GroupOrder(ids: seq<TestId>, groupOf: TestId -> Option<GroupId>)
    ensures TestCommand.Distinct(Group(ids, groupOf).order)
    ensures forall g :: g in Group(ids, groupOf).members <==> g in Group(ids, groupOf).order
    ensures forall t :: t in ids ==> GroupKey(groupOf, t) in Group(ids, groupOf).members
  {
    if ids != [] {
      var init := ids[..|ids| - 1];
      assert ids == init + [ids[|ids| - 1]];
      GroupOrder(init, groupOf);
    }
  }

  /** A group holds exactly the ids with its key, in input order, and is never empty. */
  lemma {:induction false} GroupMembers(ids: seq<TestId>, groupOf: TestId -> Option<GroupId>, h: GroupId)
    requires h in Group(ids, groupOf).members
    ensures Group(ids, groupOf).members[h] == MembersOf(ids, groupOf, h)
    ensures Group(ids, groupOf).members[h] != []
  {
    var init := ids[..|ids| - 1];
    var t := ids[|ids| - 1];
    var g := Group(init, groupOf);
    var k := GroupKey(groupOf, t);
    assert MembersOf(ids, groupOf, h) == MembersOf(init, groupOf, h) + (if k == h then [t] else []);
    if h in g.members {
      GroupMembers(init, groupOf, h);
    } else {
      GroupOrder(init, groupOf);
    }
  }

  /** Every member of every group carries the group's key. */
  lemma GroupKeyed(ids: seq<TestId>, groupOf: TestId -> Option<GroupId>)
    ensures KeyedBy(Group(ids, groupOf).members, groupOf)
  {
    forall h | h in Group(ids, groupOf).members {
      GroupMembers(ids, groupOf, h);
    }
  }

  /** The grouping loop of `partition_tests` (a `defaultdict(list)` filled in input order). */
  method GroupTests(testIds: seq<TestId>, groupOf: TestId -> Option<GroupId>) returns (grouping: Grouping)
    ensures grouping == Group(testIds, groupOf)
  {
    var order: seq<GroupId> := [];
    var members: map<GroupId, seq<TestId>> := map[];
    for i := 0 to |testIds|
      invariant Grouping(order, members) == Group(testIds[..i], groupOf)
    {
      var t := testIds[i];
      var k := GroupKey(groupOf, t);
      assert testIds[..i + 1][..i] == testIds[..i];
      if k in members {
        members := members[k := members[k] + [t]];
      } else {
        order := order + [k];
        members := members[k := [t]];
      }
    }
    assert testIds[..|testIds|] == testIds;
    grouping := Grouping(order, members);
  }

  /** The tests of the groups `gs`, as a bag. */
  function Bag(gs: seq<GroupId>, m: map<GroupId, seq<TestId>>): multiset<TestId> {
    if gs == [] then multiset{}
    else Bag(gs[..|gs| - 1], m) + (if gs[|gs| - 1] in m then multiset(m[gs[|gs| - 1]]) else multiset{})
  }

  lemma {:induction false} BagConcat(a: seq<GroupId>, b: seq<GroupId>, m: map<GroupId, seq<TestId>>)
    ensures Bag(a + b, m) == Bag(a, m) + Bag(b, m)
  {
    if b == [] {
      assert a + b == a;
    } else {
      var init := b[..|b| - 1];
      assert (a + b)[..|a + b| - 1] == a + init;
      assert (a + b)[|a + b| - 1] == b[|b| - 1];
      BagConcat(a, init, m);
    }
  }

  /** Changing a group no one in `gs` names leaves their bag alone. */
  lemma {:induction false} BagFrame(gs: seq<GroupId>, m: map<GroupId, seq<TestId>>, k: GroupId, v: seq<TestId>)
    requires k !in gs
    ensures Bag(gs, m[k := v]) == Bag(gs, m)
  {
    if gs != [] {
      BagFrame(gs[..|gs| - 1], m, k, v);
    }
  }

  /** Appending a test to a group listed exactly once adds it to the bag once. */
  lemma {:induction false} BagAppend(gs: seq<GroupId>, m: map<GroupId, seq<TestId>>, k: GroupId, t: TestId)
    requires TestCommand.Distinct(gs) && k in gs && k in m
    ensures Bag(gs, m[k := m[k] + [t]]) == Bag(gs, m) + multiset{t}
  {
    var init := gs[..|gs| - 1];
    var last := gs[|gs| - 1];
    assert gs == init + [last];
    if last == k {
      assert k !in init;
      BagFrame(init, m, k, m[k] + [t]);
      assert multiset(m[k] + [t]) == multiset(m[k]) + multiset{t};
    } else {
      assert TestCommand.Distinct(init);
      BagAppend(init, m, k, t);
    }
  }

  /** Grouping neither loses nor invents a test. */
  lemma {:induction false} GroupBag(ids: seq<TestId>, groupOf: TestId -> Option<GroupId>)
    ensures Bag(Group(ids, groupOf).order, Group(ids, groupOf).members) == multiset(ids)
  {
    if ids != [] {
      var init := ids[..|ids| - 1];
      var t := ids[|ids| - 1];
      assert ids == init + [t];
      GroupBag(init, groupOf);
      GroupOrder(init, groupOf);
      var g := Group(init, groupOf);
      var k := GroupKey(groupOf, t);
      if k in g.members {
        BagAppend(g.order, g.members, k, t);
      } else {
        BagFrame(g.order, g.members, k, [t]);
        assert (g.order + [k])[..|g.order|] == g.order;
      }
    }
  }

  /** The sum of the recorded durations of a group's distinct ids whose time is known (the
      `sum(...)` over `untimed_ids.symmetric_difference(group_tests)`). */
  function KnownTime(ms: seq<TestId>, times: Repository.TestTimes): real {
    if ms == [] then 0.0
    else
      var t := ms[|ms| - 1];
      var init := ms[..|ms| - 1];
      KnownTime(init, times) +
        (if t in init || t in times.unknown || t !in times.known then 0.0 else times.known[t])
  }

  /** Every recorded duration is non-negative. */
  predicate NonNegative(times: Repository.TestTimes) {
    forall t :: t in times.known ==> times.known[t] >= 0.0
  }

  lemma {:induction false} KnownTimeNonNegative(ms: seq<TestId>, times: Repository.TestTimes)
    requires NonNegative(times)
    ensures KnownTime(ms, times) >= 0.0
  {
    if ms != [] {
      KnownTimeNonNegative(ms[..|ms| - 1], times);
    }
  }

  /** A group none of whose ids has a known duration has no known time. */
  lemma {:induction false} KnownTimeAllUnknown(ms: seq<TestId>, times: Repository.TestTimes)
    requires forall t :: t in ms ==> t in times.unknown
    ensures KnownTime(ms, times) == 0.0
  {
    if ms != [] {
      KnownTimeAllUnknown(ms[..|ms| - 1], times);
    }
  }

  /** With non-negative durations, one known id of positive duration makes the group's time
      positive. */
  lemma {:induction false} KnownTimePositive(ms: seq<TestId>, times: Repository.TestTimes, t: TestId)
    requires NonNegative(times)
    requires t in ms && t !in times.unknown && t in times.known && times.known[t] > 0.0
    ensures KnownTime(ms, times) > 0.0
  {
    var init := ms[..|ms| - 1];
    var last := ms[|ms| - 1];
    assert ms == init + [last];
    if t in init {
      KnownTimePositive(init, times, t);
    } else {
      KnownTimeNonNegative(init, times);
    }
  }

  /** How a group is scheduled: fully timed, partially timed, or of unknown time. */
  datatype Rank = Timed | PartiallyTimed | Untimed

  /** The three-way classification of a group's tests. */
  function RankOf(ms: seq<TestId>, times: Repository.TestTimes): (r: Rank)
    ensures r == Timed <==> forall t :: t in ms ==> t !in times.unknown
    ensures r == PartiallyTimed <==>
      (exists t :: t in ms && t in times.unknown) && KnownTime(ms, times) != 0.0
    ensures r == Untimed <==>
      (exists t :: t in ms && t in times.unknown) && KnownTime(ms, times) == 0.0
  {
    var untimed := set t | t in ms && t in times.unknown;
    assert forall t :: t in ms && t in times.unknown ==> t in untimed;
    if untimed == {} then Timed
    else if KnownTime(ms, times) != 0.0 then PartiallyTimed
    else Untimed
  }

  /** A group whose ids are all new is dealt round-robin. */
  lemma AllUnknownIsUntimed(ms: seq<TestId>, times: Repository.TestTimes)
    requires ms != [] && forall t :: t in ms ==> t in times.unknown
    ensures RankOf(ms, times) == Untimed
  {
    KnownTimeAllUnknown(ms, times);
    assert ms[0] in ms;
  }

  /** With non-negative durations, a group with one positive known duration is scheduled by time. */
  lemma KnownPositiveIsScheduled(ms: seq<TestId>, times: Repository.TestTimes, t: TestId)
    requires NonNegative(times)
    requires t in ms && t !in times.unknown && t in times.known && times.known[t] > 0.0
    ensures RankOf(ms, times) != Untimed
  {
    KnownTimePositive(ms, times, t);
  }

  /** A group waiting to be placed, with its known time. */
  datatype Queued = Queued(group: GroupId, duration: real)

  /** The `timed` and `partial` dicts (in insertion order) and the `unknown` list. */
  datatype Ranking = Ranking(timed: seq<Queued>, partial: seq<Queued>, unknown: seq<GroupId>)

  function Keys(q: seq<Queued>): (r: seq<GroupId>)
    ensures |r| == |q| && forall i :: 0 <= i < |q| ==> r[i] == q[i].group
  {
    seq(|q|, i requires 0 <= i < |q| => q[i].group)
  }

  function MembersIn(m: map<GroupId, seq<TestId>>, g: GroupId): seq<TestId> {
    if g in m then m[g] else []
  }

  /** What the ranking loop builds, walking the groups in order. */
  function RankAll(order: seq<GroupId>, m: map<GroupId, seq<TestId>>, times: Repository.TestTimes): Ranking {
    if order == [] then Ranking([], [], [])
    else
      var r := RankAll(order[..|order| - 1], m, times);
      var g := order[|order| - 1];
      var ms := MembersIn(m, g);
      match RankOf(ms, times)
      case Timed => r.(timed := r.timed + [Queued(g, KnownTime(ms, times))])
      case PartiallyTimed => r.(partial := r.partial + [Queued(g, KnownTime(ms, times))])
      case Untimed => r.(unknown := r.unknown + [g])
  }

  /** One more group goes to the end of exactly one of the three lists. */
  lemma RankStep(order: seq<GroupId>, m: map<GroupId, seq<TestId>>, times: Repository.TestTimes)
    requires order != []
    ensures var r := RankAll(order[..|order| - 1], m, times);
      var g := order[|order| - 1];
      var ms := MembersIn(m, g);
      var q := Queued(g, KnownTime(ms, times));
      RankAll(order, m, times) ==
        match RankOf(ms, times)
        case Timed => Ranking(r.timed + [q], r.partial, r.unknown)
        case PartiallyTimed => Ranking(r.timed, r.partial + [q], r.unknown)
        case Untimed => Ranking(r.timed, r.partial, r.unknown + [g])
  {
  }

  /** Each group lands in the list of its rank. */
  lemma {:induction false} RankFiles(order: seq<GroupId>, m: map<GroupId, seq<TestId>>, times: Repository.TestTimes, g: GroupId)
    ensures g in Keys(RankAll(order, m, times).timed) <==> g in order && RankOf(MembersIn(m, g), times) == Timed
    ensures g in Keys(RankAll(order, m, times).partial) <==> g in order && RankOf(MembersIn(m, g), times) == PartiallyTimed
    ensures g in RankAll(order, m, times).unknown <==> g in order && RankOf(MembersIn(m, g), times) == Untimed
  {
    if order != [] {
      var init := order[..|order| - 1];
      var h := order[|order| - 1];
      assert order == init + [h];
      RankFiles(init, m, times, g);
      RankStep(order, m, times);
      var r := RankAll(init, m, times);
      var q := Queued(h, KnownTime(MembersIn(m, h), times));
      assert Keys(r.timed + [q]) == Keys(r.timed) + [h];
      assert Keys(r.partial + [q]) == Keys(r.partial) + [h];
    }
  }

  /** No list names a group twice, and each queued group carries its known time. */
  lemma {:induction false} RankDistinct(order: seq<GroupId>, m: map<GroupId, seq<TestId>>, times: Repository.TestTimes)
    requires TestCommand.Distinct(order)
    ensures var r := RankAll(order, m, times);
      TestCommand.Distinct(Keys(r.timed)) && TestCommand.Distinct(Keys(r.partial)) && TestCommand.Distinct(r.unknown)
    ensures var r := RankAll(order, m, times);
      (forall q :: q in r.timed ==> q.duration == KnownTime(MembersIn(m, q.group), times)) &&
      (forall q :: q in r.partial ==> q.duration == KnownTime(MembersIn(m, q.group), times))
  {
    if order != [] {
      var init := order[..|order| - 1];
      var h := order[|order| - 1];
      assert order == init + [h];
      assert TestCommand.Distinct(init);
      RankDistinct(init, m, times);
      RankStep(order, m, times);
      RankFiles(init, m, times, h);
      var r := RankAll(init, m, times);
      var q := Queued(h, KnownTime(MembersIn(m, h), times));
      assert Keys(r.timed + [q]) == Keys(r.timed) + [h];
      assert Keys(r.partial + [q]) == Keys(r.partial) + [h];
    }
  }

  /** The bag of one more group. */
  lemma BagSnoc(gs: seq<GroupId>, g: GroupId, m: map<GroupId, seq<TestId>>)
    ensures Bag(gs + [g], m) == Bag(gs, m) + multiset(MembersIn(m, g))
  {
    assert (gs + [g])[..|gs|] == gs;
  }

  /** The tests of all three lists of a ranking. */
  function RankedBag(r: Ranking, m: map<GroupId, seq<TestId>>): multiset<TestId> {
    QBag(r.timed, m) + QBag(r.partial, m) + Bag(r.unknown, m)
  }

  /** The tests of the queued groups, as a bag. */
  function QBag(q: seq<Queued>, m: map<GroupId, seq<TestId>>): multiset<TestId> {
    if q == [] then multiset{}
    else QBag(q[..|q| - 1], m) + multiset(MembersIn(m, q[|q| - 1].group))
  }

  lemma {:induction false} QBagPrepend(a: Queued, t: seq<Queued>, m: map<GroupId, seq<TestId>>)
    ensures QBag([a] + t, m) == multiset(MembersIn(m, a.group)) + QBag(t, m)
  {
    if t == [] {
      assert [a] + t == [a];
      assert [a][..0] == [];
    } else {
      var init := t[..|t| - 1];
      QBagPrepend(a, init, m);
      assert ([a] + t)[..|t|] == [a] + init;
      assert ([a] + t)[|t|] == t[|t| - 1];
    }
  }

  /** Ranking one more group adds its tests to the ranking's bag. */
  lemma RankBagStep(order: seq<GroupId>, m: map<GroupId, seq<TestId>>, times: Repository.TestTimes)
    requires order != []
    ensures RankedBag(RankAll(order, m, times), m) ==
      RankedBag(RankAll(order[..|order| - 1], m, times), m) + multiset(MembersIn(m, order[|order| - 1]))
  {
    var r := RankAll(order[..|order| - 1], m, times);
    var g := order[|order| - 1];
    var ms := MembersIn(m, g);
    var q := Queued(g, KnownTime(ms, times));
    var rank := RankOf(ms, times);
    var rn := RankAll(order, m, times);
    if rank == Timed {
      assert rn == r.(timed := r.timed + [q]);
      assert (r.timed + [q])[..|r.timed|] == r.timed;
    } else if rank == PartiallyTimed {
      assert rn == r.(partial := r.partial + [q]);
      assert (r.partial + [q])[..|r.partial|] == r.partial;
    } else {
      assert rn == r.(unknown := r.unknown + [g]);
      BagSnoc(r.unknown, g, m);
    }
  }

  /** Ranking splits the groups' tests between the three lists without loss. */
  lemma {:induction false} RankBag(order: seq<GroupId>, m: map<GroupId, seq<TestId>>, times: Repository.TestTimes)
    ensures RankedBag(RankAll(order, m, times), m) == Bag(order, m)
  {
    if order != [] {
      var init := order[..|order| - 1];
      RankBag(init, m, times);
      RankBagStep(order, m, times);
    }
  }

  /** The ranking loop of `partition_tests`. */
  method RankGroups(grouping: Grouping, times: Repository.TestTimes) returns (ranking: Ranking)
    ensures ranking == RankAll(grouping.order, grouping.members, times)
  {
    var timed: seq<Queued> := [];
    var partial: seq<Queued> := [];
    var unknown: seq<GroupId> := [];
    var order := grouping.order;
    for i := 0 to |order|
      invariant Ranking(timed, partial, unknown) == RankAll(order[..i], grouping.members, times)
    {
      var g := order[i];
      var groupTests := MembersIn(grouping.members, g);
      var groupTime := KnownTime(groupTests, times);
      var untimed := set t | t in groupTests && t in times.unknown;
      assert order[..i + 1][..i] == order[..i];
      if untimed == {} {
        timed := timed + [Queued(g, groupTime)];
      } else if groupTime != 0.0 {
        partial := partial + [Queued(g, groupTime)];
      } else {
        unknown := unknown + [g];
      }
    }
    assert order[..|order|] == order;
    ranking := Ranking(timed, partial, unknown);
  }

  /** Inserts `x` after every element `leq` puts before or level with it, so that equal elements
      keep their earlier order. */
  function InsertBy<T>(x: T, s: seq<T>, leq: (T, T) -> bool): seq<T> {
    if s == [] then [x]
    else if leq(s[0], x) then [s[0]] + InsertBy(x, s[1..], leq)
    else [x] + s
  }

  /** A stable sort, as Python's `sorted` and `list.sort` are. */
  function SortBy<T>(s: seq<T>, leq: (T, T) -> bool): seq<T> {
    if s == [] then []
    else InsertBy(s[|s| - 1], SortBy(s[..|s| - 1], leq), leq)
  }

  predicate SortedBy<T>(s: seq<T>, leq: (T, T) -> bool) {
    forall a, b :: 0 <= a < b < |s| ==> leq(s[a], s[b])
  }

  /** `leq` compares any two elements, transitively: a sort key's order. */
  ghost predicate TotalPreorder<T(!new)>(leq: (T, T) -> bool) {
    (forall a, b :: leq(a, b) || leq(b, a)) &&
    (forall a, b, c :: leq(a, b) && leq(b, c) ==> leq(a, c))
  }

  lemma {:induction false} InsertByElements<T(!new)>(x: T, s: seq<T>, leq: (T, T) -> bool)
    ensures multiset(InsertBy(x, s, leq)) == multiset(s) + multiset{x}
  {
    if s != [] {
      assert s == [s[0]] + s[1..];
      if leq(s[0], x) {
        InsertByElements(x, s[1..], leq);
      }
    }
  }

  lemma {:induction false} InsertBySorted<T(!new)>(x: T, s: seq<T>, leq: (T, T) -> bool)
    requires TotalPreorder(leq) && SortedBy(s, leq)
    ensures SortedBy(InsertBy(x, s, leq), leq)
  {
    if s != [] && leq(s[0], x) {
      var rest := InsertBy(x, s[1..], leq);
      InsertBySorted(x, s[1..], leq);
      InsertByElements(x, s[1..], leq);
      forall b | 0 <= b < |rest|
        ensures leq(s[0], rest[b])
      {
        assert rest[b] in multiset(rest);
        assert rest[b] == x || rest[b] in s[1..];
      }
    }
  }

  /** The sort orders the elements and keeps every one of them. */
  lemma {:induction false} SortBySorted<T(!new)>(s: seq<T>, leq: (T, T) -> bool)
    requires TotalPreorder(leq)
    ensures SortedBy(SortBy(s, leq), leq)
    ensures multiset(SortBy(s, leq)) == multiset(s)
  {
    if s != [] {
      var init := s[..|s| - 1];
      SortBySorted(init, leq);
      InsertBySorted(s[|s| - 1], SortBy(init, leq), leq);
      InsertByElements(s[|s| - 1], SortBy(init, leq), leq);
      assert s == init + [s[|s| - 1]];
    }
  }

  /** The `reverse=True` order on `itemgetter(1)`: longer groups first. */
  function LongerFirst(a: Queued, b: Queued): bool {
    a.duration >= b.duration
  }

  lemma LongerFirstIsPreorder()
    ensures TotalPreorder(LongerFirst)
  {
  }

  /** `sorted(groups.items(), key=operator.itemgetter(1), reverse=True)`. */
  function ByDuration(q: seq<Queued>): (r: seq<Queued>)
    ensures SortedBy(r, LongerFirst) && multiset(r) == multiset(q)
  {
    LongerFirstIsPreorder();
    SortBySorted(q, LongerFirst);
    SortBy(q, LongerFirst)
  }

  lemma DistinctPrepend(a: GroupId, s: seq<GroupId>)
    requires a !in s && TestCommand.Distinct(s)
    ensures TestCommand.Distinct([a] + s)
  {
    forall i, j | 0 <= i < j < |[a] + s|
      ensures ([a] + s)[i] != ([a] + s)[j]
    {
      assert ([a] + s)[j] == s[j - 1];
    }
  }

  lemma KeysPrepend(a: Queued, s: seq<Queued>)
    ensures Keys([a] + s) == [a.group] + Keys(s)
  {
    var l := Keys([a] + s);
    var r := [a.group] + Keys(s);
    forall i | 0 <= i < |l|
      ensures l[i] == r[i]
    {
      if i > 0 {
        assert ([a] + s)[i] == s[i - 1];
      }
    }
  }

  /** Inserting a group into a queue adds its key and no other. */
  lemma {:induction false} InsertKeys(x: Queued, s: seq<Queued>, leq: (Queued, Queued) -> bool)
    ensures forall g :: g in Keys(InsertBy(x, s, leq)) <==> g == x.group || g in Keys(s)
  {
    if s == [] {
      KeysPrepend(x, []);
      assert [x] + [] == [x];
    } else {
      assert s == [s[0]] + s[1..];
      KeysPrepend(s[0], s[1..]);
      if leq(s[0], x) {
        InsertKeys(x, s[1..], leq);
        KeysPrepend(s[0], InsertBy(x, s[1..], leq));
      } else {
        KeysPrepend(x, s);
      }
    }
  }

  /** Inserting a new group into a queue of distinct groups keeps them distinct. */
  lemma {:induction false} InsertKeysDistinct(x: Queued, s: seq<Queued>, leq: (Queued, Queued) -> bool)
    requires TestCommand.Distinct(Keys(s)) && x.group !in Keys(s)
    ensures TestCommand.Distinct(Keys(InsertBy(x, s, leq)))
  {
    if s == [] {
      KeysPrepend(x, []);
      assert [x] + [] == [x];
    } else {
      assert s == [s[0]] + s[1..];
      KeysPrepend(s[0], s[1..]);
      if leq(s[0], x) {
        var rest := InsertBy(x, s[1..], leq);
        InsertKeysDistinct(x, s[1..], leq);
        InsertKeys(x, s[1..], leq);
        KeysPrepend(s[0], rest);
        DistinctPrepend(s[0].group, Keys(rest));
      } else {
        KeysPrepend(x, s);
        DistinctPrepend(x.group, Keys(s));
      }
    }
  }

  /** Inserting a group into a queue adds its tests. */
  lemma {:induction false} InsertBag(x: Queued, s: seq<Queued>, leq: (Queued, Queued) -> bool, m: map<GroupId, seq<TestId>>)
    ensures QBag(InsertBy(x, s, leq), m) == QBag(s, m) + multiset(MembersIn(m, x.group))
  {
    if s == [] {
      QBagPrepend(x, [], m);
    } else {
      assert s == [s[0]] + s[1..];
      QBagPrepend(s[0], s[1..], m);
      if leq(s[0], x) {
        InsertBag(x, s[1..], leq, m);
        QBagPrepend(s[0], InsertBy(x, s[1..], leq), m);
      } else {
        QBagPrepend(x, s, m);
      }
    }
  }

  /** Sorting a queue keeps its set of keys and their distinctness. */
  lemma {:induction false} SortKeys(q: seq<Queued>, leq: (Queued, Queued) -> bool)
    ensures forall g :: g in Keys(SortBy(q, leq)) <==> g in Keys(q)
    ensures TestCommand.Distinct(Keys(q)) ==> TestCommand.Distinct(Keys(SortBy(q, leq)))
  {
    if q != [] {
      var init := q[..|q| - 1];
      var x := q[|q| - 1];
      SortKeys(init, leq);
      InsertKeys(x, SortBy(init, leq), leq);
      assert Keys(q) == Keys(init) + [x.group];
      if TestCommand.Distinct(Keys(q)) {
        assert TestCommand.Distinct(Keys(init)) && x.group !in Keys(init);
        InsertKeysDistinct(x, SortBy(init, leq), leq);
      }
    }
  }

  /** Sorting a queue keeps its tests. */
  lemma {:induction false} SortBag(q: seq<Queued>, leq: (Queued, Queued) -> bool, m: map<GroupId, seq<TestId>>)
    ensures QBag(SortBy(q, leq), m) == QBag(q, m)
  {
    if q != [] {
      var init := q[..|q| - 1];
      SortBag(init, leq, m);
      InsertBag(q[|q| - 1], SortBy(init, leq), leq, m);
    }
  }

  /** `range(concurrency)`: the partitions in creation order. */
  function Range(c: nat): (r: seq<nat>)
    ensures |r| == c && forall i :: 0 <= i < c ==> r[i] == i
  {
    seq(c, i => i)
  }

  /** The concatenation of the partitions. */
  function Flatten(ps: seq<seq<TestId>>): seq<TestId> {
    if ps == [] then [] else Flatten(ps[..|ps| - 1]) + ps[|ps| - 1]
  }

  /** Extending one partition adds exactly the new tests. */
  lemma {:induction false} FlattenExtend(ps: seq<seq<TestId>>, j: nat, x: seq<TestId>)
    requires j < |ps|
    ensures multiset(Flatten(ps[j := ps[j] + x])) == multiset(Flatten(ps)) + multiset(x)
  {
    var init := ps[..|ps| - 1];
    var qs := ps[j := ps[j] + x];
    assert qs[..|qs| - 1] == if j == |ps| - 1 then init else init[j := init[j] + x];
    if j < |ps| - 1 {
      FlattenExtend(init, j, x);
    }
  }

  /** The scheduler's state. `order` is `timed_partitions` as indices: its entry k is the pair
      `[totals[order[k]], parts[order[k]]]`, whose list is the same object as
      `partitions[order[k]]`. */
  datatype Loads = Loads(order: seq<nat>, totals: seq<real>, parts: seq<seq<TestId>>)

  function TotalAt(totals: seq<real>, i: nat): real {
    if i < |totals| then totals[i] else 0.0
  }

  function LengthAt(parts: seq<seq<TestId>>, i: nat): nat {
    if i < |parts| then |parts[i]| else 0
  }

  /** The sort key `(item[0], len(item[1]))`, compared as a tuple. */
  function LighterFirst(totals: seq<real>, parts: seq<seq<TestId>>): (nat, nat) -> bool {
    (i: nat, k: nat) =>
      TotalAt(totals, i) < TotalAt(totals, k) ||
      (TotalAt(totals, i) == TotalAt(totals, k) && LengthAt(parts, i) <= LengthAt(parts, k))
  }

  lemma LighterFirstIsPreorder(totals: seq<real>, parts: seq<seq<TestId>>)
    ensures TotalPreorder(LighterFirst(totals, parts))
  {
  }

  /** `timed_partitions` lists every partition once and is sorted by its key. */
  ghost predicate ValidLoads(st: Loads) {
    |st.parts| >= 1 && |st.totals| == |st.parts| &&
    multiset(st.order) == multiset(Range(|st.parts|)) &&
    SortedBy(st.order, LighterFirst(st.totals, st.parts))
  }

  lemma OrderIndices(st: Loads)
    requires ValidLoads(st)
    ensures |st.order| == |st.parts|
    ensures forall k :: 0 <= k < |st.order| ==> st.order[k] < |st.parts|
    ensures forall i :: 0 <= i < |st.parts| ==> i in st.order
  {
    assert |st.order| == |multiset(st.order)| == |multiset(Range(|st.parts|))| == |st.parts|;
    forall k | 0 <= k < |st.order|
      ensures st.order[k] < |st.parts|
    {
      assert st.order[k] in multiset(Range(|st.parts|));
    }
    forall i | 0 <= i < |st.parts|
      ensures i in st.order
    {
      assert Range(|st.parts|)[i] == i;
      assert i in multiset(Range(|st.parts|));
    }
  }

  /** Before the first group: every partition empty with total `0.0`, in creation order. */
  function InitialLoads(c: nat): (st: Loads)
    requires c >= 1
    ensures ValidLoads(st) && |st.parts| == c
    ensures st.order == Range(c) && forall i :: 0 <= i < c ==> st.totals[i] == 0.0 && st.parts[i] == []
  {
    Loads(Range(c), seq(c, _ => 0.0), seq(c, _ => []))
  }

  /** The head of `timed_partitions` has the smallest `(total, length)` of all partitions: the
      greedy choice. */
  lemma LeastLoadedFirst(st: Loads)
    requires ValidLoads(st)
    ensures st.order[0] < |st.parts|
    ensures forall k :: 0 <= k < |st.parts| ==> LighterFirst(st.totals, st.parts)(st.order[0], k)
  {
    OrderIndices(st);
    LighterFirstIsPreorder(st.totals, st.parts);
    forall k | 0 <= k < |st.parts|
      ensures LighterFirst(st.totals, st.parts)(st.order[0], k)
    {
      assert k in st.order;
      var p :| 0 <= p < |st.order| && st.order[p] == k;
    }
  }

  /** One step of `consume_queue`: the head partition takes the group and its duration, then
      `timed_partitions` is sorted again. */
  function Place(st: Loads, x: Queued, m: map<GroupId, seq<TestId>>): (r: Loads)
    requires ValidLoads(st)
    ensures ValidLoads(r) && |r.parts| == |st.parts|
  {
    OrderIndices(st);
    var j := st.order[0];
    var totals := st.totals[j := st.totals[j] + x.duration];
    var parts := st.parts[j := st.parts[j] + MembersIn(m, x.group)];
    LighterFirstIsPreorder(totals, parts);
    SortBySorted(st.order, LighterFirst(totals, parts));
    Loads(SortBy(st.order, LighterFirst(totals, parts)), totals, parts)
  }

  /** The placement step field by field: the least loaded partition's total grows by the group's
      duration and its tests by the group's tests, and the order is re-sorted on the new loads. */
  lemma PlaceFields(st: Loads, x: Queued, m: map<GroupId, seq<TestId>>)
    requires ValidLoads(st)
    ensures |st.order| == |st.parts| && st.order[0] < |st.parts|
    ensures var j := st.order[0];
      var r := Place(st, x, m);
      r.totals == st.totals[j := st.totals[j] + x.duration] &&
      r.parts == st.parts[j := st.parts[j] + MembersIn(m, x.group)] &&
      r.order == SortBy(st.order, LighterFirst(r.totals, r.parts))
  {
    OrderIndices(st);
  }

  /** `consume_queue(groups)` over an already sorted queue. */
  function Consume(st: Loads, queue: seq<Queued>, m: map<GroupId, seq<TestId>>): (r: Loads)
    requires ValidLoads(st)
    ensures ValidLoads(r) && |r.parts| == |st.parts|
    decreases |queue|
  {
    if queue == [] then st else Consume(Place(st, queue[0], m), queue[1..], m)
  }

  lemma PlaceBag(st: Loads, x: Queued, m: map<GroupId, seq<TestId>>)
    requires ValidLoads(st)
    ensures multiset(Flatten(Place(st, x, m).parts)) == multiset(Flatten(st.parts)) + multiset(MembersIn(m, x.group))
  {
    OrderIndices(st);
    FlattenExtend(st.parts, st.order[0], MembersIn(m, x.group));
  }

  /** Placing groups adds exactly their tests to the partitions. */
  lemma ConsumeBag(st: Loads, queue: seq<Queued>, m: map<GroupId, seq<TestId>>)
    requires ValidLoads(st)
    ensures multiset(Flatten(Consume(st, queue, m).parts)) == multiset(Flatten(st.parts)) + QBag(queue, m)
    decreases |queue|
  {
    if queue != [] {
      PlaceBag(st, queue[0], m);
      ConsumeBag(Place(st, queue[0], m), queue[1..], m);
      assert queue == [queue[0]] + queue[1..];
      QBagPrepend(queue[0], queue[1..], m);
    }
  }

  /** Every pair of totals lies within `bound` of each other. */
  ghost predicate TotalsWithin(totals: seq<real>, bound: real) {
    forall i, k :: 0 <= i < |totals| && 0 <= k < |totals| ==> totals[i] <= totals[k] + bound
  }

  /** Greedy balancing: when no group takes longer than `bound` (nor less than 0), the partitions'
      totals stay within `bound` of each other. */
  lemma ConsumeBalanced(st: Loads, queue: seq<Queued>, m: map<GroupId, seq<TestId>>, bound: real)
    requires ValidLoads(st) && TotalsWithin(st.totals, bound)
    requires forall k :: 0 <= k < |queue| ==> 0.0 <= queue[k].duration <= bound
    ensures TotalsWithin(Consume(st, queue, m).totals, bound)
    decreases |queue|
  {
    if queue != [] {
      LeastLoadedFirst(st);
      var j := st.order[0];
      var next := Place(st, queue[0], m);
      assert forall k :: 0 <= k < |st.totals| ==> st.totals[j] <= st.totals[k] by {
        forall k | 0 <= k < |st.totals|
          ensures st.totals[j] <= st.totals[k]
        {
          assert LighterFirst(st.totals, st.parts)(j, k);
        }
      }
      assert next.totals == st.totals[j := st.totals[j] + queue[0].duration];
      ConsumeBalanced(next, queue[1..], m, bound);
    }
  }

  /** Every pair of partition lengths lies within `bound` of each other. */
  ghost predicate LengthsWithin(parts: seq<seq<TestId>>, bound: nat) {
    forall i, k :: 0 <= i < |parts| && 0 <= k < |parts| ==> |parts[i]| <= |parts[k]| + bound
  }

  ghost predicate AllEqual(totals: seq<real>) {
    forall i, k :: 0 <= i < |totals| && 0 <= k < |totals| ==> totals[i] == totals[k]
  }

  /** Ties on time go to the shortest partition: groups recorded with zero duration, at most
      `bound` tests each, keep the partition lengths within `bound` of each other. */
  lemma ConsumeZeroDurations(st: Loads, queue: seq<Queued>, m: map<GroupId, seq<TestId>>, bound: nat)
    requires ValidLoads(st) && AllEqual(st.totals) && LengthsWithin(st.parts, bound)
    requires forall k :: 0 <= k < |queue| ==> queue[k].duration == 0.0 && |MembersIn(m, queue[k].group)| <= bound
    ensures AllEqual(Consume(st, queue, m).totals) && LengthsWithin(Consume(st, queue, m).parts, bound)
    decreases |queue|
  {
    if queue != [] {
      LeastLoadedFirst(st);
      var j := st.order[0];
      var next := Place(st, queue[0], m);
      assert forall k :: 0 <= k < |st.parts| ==> |st.parts[j]| <= |st.parts[k]| by {
        forall k | 0 <= k < |st.parts|
          ensures |st.parts[j]| <= |st.parts[k]|
        {
          assert LighterFirst(st.totals, st.parts)(j, k);
        }
      }
      assert next.totals == st.totals[j := st.totals[j] + 0.0];
      assert next.parts == st.parts[j := st.parts[j] + MembersIn(m, queue[0].group)];
      ConsumeZeroDurations(next, queue[1..], m, bound);
    }
  }

  /** One iteration of `consume_queue`: the group joins the least loaded partition, whose total
      grows by the group's duration, and the partitions are re-sorted by (total, length). */
  method PlaceGroup(order: seq<nat>, totals: seq<real>, parts: seq<seq<TestId>>, x: Queued, m: map<GroupId, seq<TestId>>)
    returns (order': seq<nat>, totals': seq<real>, parts': seq<seq<TestId>>)
    requires ValidLoads(Loads(order, totals, parts))
    ensures Loads(order', totals', parts') == Place(Loads(order, totals, parts), x, m)
  {
    PlaceFields(Loads(order, totals, parts), x, m);
    var j := order[0];
    totals' := totals[j := totals[j] + x.duration];
    parts' := parts[j := parts[j] + MembersIn(m, x.group)];
    order' := SortBy(order, LighterFirst(totals', parts'));
  }

  /** The `consume_queue` loop over one sorted queue. */
  method ConsumeQueue(start: Loads, queue: seq<Queued>, m: map<GroupId, seq<TestId>>) returns (st: Loads)
    requires ValidLoads(start)
    ensures st == Consume(start, queue, m)
  {
    st := start;
    for i := 0 to |queue|
      invariant ValidLoads(st)
      invariant Consume(st, queue[i..], m) == Consume(start, queue, m)
    {
      assert queue[i..][0] == queue[i] && queue[i..][1..] == queue[i + 1..];
      assert Consume(st, queue[i..], m) == Consume(Place(st, queue[i], m), queue[i + 1..], m);
      var order, totals, parts := PlaceGroup(st.order, st.totals, st.parts, queue[i], m);
      st := Loads(order, totals, parts);
    }
  }

  /** Every test in partition `j` belongs to a group that `owner` assigns to `j`. */
  ghost predicate Owned(parts: seq<seq<TestId>>, owner: map<GroupId, nat>, groupOf: TestId -> Option<GroupId>) {
    forall j, t :: 0 <= j < |parts| && t in parts[j] ==>
      GroupKey(groupOf, t) in owner && owner[GroupKey(groupOf, t)] == j
  }

  /** Which partition each placed group went to. */
  ghost function ConsumeOwner(st: Loads, queue: seq<Queued>, m: map<GroupId, seq<TestId>>, owner: map<GroupId, nat>): map<GroupId, nat>
    requires ValidLoads(st)
    decreases |queue|
  {
    if queue == [] then owner
    else ConsumeOwner(Place(st, queue[0], m), queue[1..], m, owner[queue[0].group := st.order[0]])
  }

  /** A group not yet placed goes, whole, to one partition. */
  lemma PlaceOwned(st: Loads, x: Queued, m: map<GroupId, seq<TestId>>, owner: map<GroupId, nat>, groupOf: TestId -> Option<GroupId>)
    requires ValidLoads(st) && Owned(st.parts, owner, groupOf) && KeyedBy(m, groupOf) && x.group !in owner
    ensures Owned(Place(st, x, m).parts, owner[x.group := st.order[0]], groupOf)
  {
    OrderIndices(st);
    var j := st.order[0];
    var r := Place(st, x, m);
    var o := owner[x.group := j];
    assert r.parts == st.parts[j := st.parts[j] + MembersIn(m, x.group)];
    forall i, t | 0 <= i < |r.parts| && t in r.parts[i]
      ensures GroupKey(groupOf, t) in o && o[GroupKey(groupOf, t)] == i
    {
      if i == j && t in MembersIn(m, x.group) {
        assert GroupKey(groupOf, t) == x.group;
      } else {
        assert t in st.parts[i];
      }
    }
  }

  /** Groups placed one by one, each once, are never split. */
  lemma ConsumeOwned(st: Loads, queue: seq<Queued>, m: map<GroupId, seq<TestId>>, owner: map<GroupId, nat>, groupOf: TestId -> Option<GroupId>)
    requires ValidLoads(st) && Owned(st.parts, owner, groupOf) && KeyedBy(m, groupOf)
    requires TestCommand.Distinct(Keys(queue)) && forall g :: g in Keys(queue) ==> g !in owner
    ensures Owned(Consume(st, queue, m).parts, ConsumeOwner(st, queue, m, owner), groupOf)
    ensures forall g :: g in ConsumeOwner(st, queue, m, owner) <==> g in owner || g in Keys(queue)
    decreases |queue|
  {
    if queue != [] {
      var x := queue[0];
      assert x.group == Keys(queue)[0];
      PlaceOwned(st, x, m, owner, groupOf);
      var rest := queue[1..];
      assert Keys(queue) == [x.group] + Keys(rest);
      ConsumeOwned(Place(st, x, m), rest, m, owner[x.group := st.order[0]], groupOf);
    }
  }

  /** The round-robin deal of the unknown groups: the k-th goes to partition `k % concurrency`. */
  function Deal(parts: seq<seq<TestId>>, unknown: seq<GroupId>, m: map<GroupId, seq<TestId>>): (r: seq<seq<TestId>>)
    requires |parts| >= 1
    ensures |r| == |parts|
  {
    if unknown == [] then parts
    else
      var p := Deal(parts, unknown[..|unknown| - 1], m);
      var j := (|unknown| - 1) % |parts|;
      p[j := p[j] + MembersIn(m, unknown[|unknown| - 1])]
  }

  /** The deal adds exactly the unknown groups' tests. */
  lemma {:induction false} DealBag(parts: seq<seq<TestId>>, unknown: seq<GroupId>, m: map<GroupId, seq<TestId>>)
    requires |parts| >= 1
    ensures multiset(Flatten(Deal(parts, unknown, m))) == multiset(Flatten(parts)) + Bag(unknown, m)
  {
    if unknown != [] {
      var init := unknown[..|unknown| - 1];
      DealBag(parts, init, m);
      FlattenExtend(Deal(parts, init, m), (|unknown| - 1) % |parts|, MembersIn(m, unknown[|unknown| - 1]));
    }
  }

  /** Which partition each dealt group went to. */
  ghost function DealOwner(unknown: seq<GroupId>, c: nat, owner: map<GroupId, nat>): map<GroupId, nat>
    requires c >= 1
  {
    if unknown == [] then owner
    else DealOwner(unknown[..|unknown| - 1], c, owner)[unknown[|unknown| - 1] := (|unknown| - 1) % c]
  }

  lemma {:induction false} DealOwnerKeys(unknown: seq<GroupId>, c: nat, owner: map<GroupId, nat>)
    requires c >= 1
    ensures forall g :: g in DealOwner(unknown, c, owner) <==> g in owner || g in unknown
  {
    if unknown != [] {
      var init := unknown[..|unknown| - 1];
      DealOwnerKeys(init, c, owner);
      assert unknown == init + [unknown[|unknown| - 1]];
    }
  }

  /** Dealing each unknown group once never splits a group either. */
  lemma {:induction false} DealOwned(parts: seq<seq<TestId>>, unknown: seq<GroupId>, m: map<GroupId, seq<TestId>>,
                                      owner: map<GroupId, nat>, groupOf: TestId -> Option<GroupId>)
    requires |parts| >= 1 && Owned(parts, owner, groupOf) && KeyedBy(m, groupOf)
    requires TestCommand.Distinct(unknown) && forall g :: g in unknown ==> g !in owner
    ensures Owned(Deal(parts, unknown, m), DealOwner(unknown, |parts|, owner), groupOf)
  {
    if unknown != [] {
      var init := unknown[..|unknown| - 1];
      var g := unknown[|unknown| - 1];
      assert unknown == init + [g];
      assert TestCommand.Distinct(init) && g !in init;
      DealOwned(parts, init, m, owner, groupOf);
      DealOwnerKeys(init, |parts|, owner);
      var p := Deal(parts, init, m);
      var o := DealOwner(init, |parts|, owner);
      var j := (|unknown| - 1) % |parts|;
      var r := Deal(parts, unknown, m);
      assert r == p[j := p[j] + MembersIn(m, g)];
      forall i, t | 0 <= i < |r| && t in r[i]
        ensures GroupKey(groupOf, t) in o[g := j] && o[g := j][GroupKey(groupOf, t)] == i
      {
        if i == j && t in MembersIn(m, g) {
          assert GroupKey(groupOf, t) == g;
        } else {
          assert t in p[i];
        }
      }
    }
  }

  /** The k-th unknown group ends up in partition `k % concurrency`, and dealing never removes a
      test from a partition. */
  lemma {:induction false} DealPlaces(parts: seq<seq<TestId>>, unknown: seq<GroupId>, m: map<GroupId, seq<TestId>>)
    requires |parts| >= 1
    ensures forall i, t :: 0 <= i < |parts| && t in parts[i] ==> t in Deal(parts, unknown, m)[i]
    ensures forall k, t :: 0 <= k < |unknown| && t in MembersIn(m, unknown[k]) ==>
      t in Deal(parts, unknown, m)[k % |parts|]
  {
    if unknown != [] {
      var init := unknown[..|unknown| - 1];
      DealPlaces(parts, init, m);
      var p := Deal(parts, init, m);
      var j := (|unknown| - 1) % |parts|;
      assert Deal(parts, unknown, m) == p[j := p[j] + MembersIn(m, unknown[|unknown| - 1])];
    }
  }

  /** The time data, grouping and ranking `partition_tests` computes before placing anything. */
  function Ranked(testIds: seq<TestId>, recorded: map<TestId, real>, groupOf: TestId -> Option<GroupId>): Ranking {
    var times := Repository.GetTestTimes((set t | t in testIds), recorded);
    var grouping := Group(testIds, groupOf);
    RankAll(grouping.order, grouping.members, times)
  }

  /** What `partition_tests` returns: the timed groups placed longest first, then the partially
      timed ones, then the unknown ones dealt round-robin. */
  function Schedule(testIds: seq<TestId>, concurrency: nat, recorded: map<TestId, real>, groupOf: TestId -> Option<GroupId>): seq<seq<TestId>>
    requires concurrency >= 1
  {
    var m := Group(testIds, groupOf).members;
    var ranking := Ranked(testIds, recorded, groupOf);
    var timedDone := Consume(InitialLoads(concurrency), ByDuration(ranking.timed), m);
    var partialDone := Consume(timedDone, ByDuration(ranking.partial), m);
    Deal(partialDone.parts, ranking.unknown, m)
  }

  lemma EmptyFlatten(c: nat)
    requires c >= 1
    ensures Flatten(InitialLoads(c).parts) == []
    decreases c
  {
    var ps := InitialLoads(c).parts;
    if c > 1 {
      EmptyFlatten(c - 1);
      assert ps[..c - 1] == InitialLoads(c - 1).parts;
    } else {
      assert ps[..0] == [];
    }
  }

  /** The promise of `partition_tests`: `concurrency` partitions whose union holds every given
      test exactly as often as it was given. */
  lemma ScheduleBag(testIds: seq<TestId>, concurrency: nat, recorded: map<TestId, real>, groupOf: TestId -> Option<GroupId>)
    requires concurrency >= 1
    ensures |Schedule(testIds, concurrency, recorded, groupOf)| == concurrency
    ensures multiset(Flatten(Schedule(testIds, concurrency, recorded, groupOf))) == multiset(testIds)
  {
    var times := Repository.GetTestTimes((set t | t in testIds), recorded);
    var G := Group(testIds, groupOf);
    var m := G.members;
    var R := Ranked(testIds, recorded, groupOf);
    var qt := ByDuration(R.timed);
    var qp := ByDuration(R.partial);
    var st0 := InitialLoads(concurrency);
    var st1 := Consume(st0, qt, m);
    var st2 := Consume(st1, qp, m);
    EmptyFlatten(concurrency);
    ConsumeBag(st0, qt, m);
    SortBag(R.timed, LongerFirst, m);
    assert multiset(Flatten(st1.parts)) == QBag(R.timed, m);
    ConsumeBag(st1, qp, m);
    SortBag(R.partial, LongerFirst, m);
    DealBag(st2.parts, R.unknown, m);
    assert multiset(Flatten(Deal(st2.parts, R.unknown, m))) == RankedBag(R, m);
    RankBag(G.order, m, times);
    GroupBag(testIds, groupOf);
  }

  /** The promise of `partition_tests` about groups: tests with the same group key always land in
      the same partition, so the partitions are disjoint at the level of groups. */
  lemma ScheduleKeepsGroups(testIds: seq<TestId>, concurrency: nat, recorded: map<TestId, real>, groupOf: TestId -> Option<GroupId>)
    requires concurrency >= 1
    ensures var P := Schedule(testIds, concurrency, recorded, groupOf);
      forall i, j, t, u ::
        (0 <= i < |P| && 0 <= j < |P| && t in P[i] && u in P[j] && GroupKey(groupOf, t) == GroupKey(groupOf, u)) ==> i == j
  {
    var times := Repository.GetTestTimes((set t | t in testIds), recorded);
    var G := Group(testIds, groupOf);
    var m := G.members;
    var R := Ranked(testIds, recorded, groupOf);
    GroupOrder(testIds, groupOf);
    GroupKeyed(testIds, groupOf);
    RankDistinct(G.order, m, times);
    var qt := ByDuration(R.timed);
    var qp := ByDuration(R.partial);
    SortKeys(R.timed, LongerFirst);
    SortKeys(R.partial, LongerFirst);
    var st0 := InitialLoads(concurrency);
    var st1 := Consume(st0, qt, m);
    var st2 := Consume(st1, qp, m);
    ConsumeOwned(st0, qt, m, map[], groupOf);
    var o1 := ConsumeOwner(st0, qt, m, map[]);
    forall g | g in Keys(qp)
      ensures g !in o1
    {
      RankFiles(G.order, m, times, g);
    }
    ConsumeOwned(st1, qp, m, o1, groupOf);
    var o2 := ConsumeOwner(st1, qp, m, o1);
    forall g | g in R.unknown
      ensures g !in o2
    {
      RankFiles(G.order, m, times, g);
    }
    DealOwned(st2.parts, R.unknown, m, o2, groupOf);
  }

  /** A test is in the concatenation exactly when it is in one of the partitions. */
  lemma {:induction false} FlattenMembers(ps: seq<seq<TestId>>)
    ensures forall t :: t in Flatten(ps) <==> exists i :: 0 <= i < |ps| && t in ps[i]
  {
    if ps != [] {
      var init := ps[..|ps| - 1];
      FlattenMembers(init);
      forall t
        ensures t in Flatten(ps) <==> exists i :: 0 <= i < |ps| && t in ps[i]
      {
        if t in Flatten(init) {
          var i :| 0 <= i < |init| && t in init[i];
          assert ps[i] == init[i];
        }
        if exists i :: 0 <= i < |ps| && t in ps[i] {
          var i :| 0 <= i < |ps| && t in ps[i];
          if i < |ps| - 1 {
            assert init[i] == ps[i];
          }
        }
      }
    }
  }

  /** Each partition's tests are among the concatenation's, as often. */
  lemma {:induction false} FlattenPartBag(ps: seq<seq<TestId>>, i: nat)
    requires i < |ps|
    ensures multiset(ps[i]) <= multiset(Flatten(ps))
  {
    var init := ps[..|ps| - 1];
    if i < |ps| - 1 {
      FlattenPartBag(init, i);
      assert init[i] == ps[i];
    }
  }

  /** A duplicate-free sequence holds each test at most once. */
  lemma {:induction false} DistinctCount(s: seq<TestId>)
    requires TestCommand.Distinct(s)
    ensures forall t :: multiset(s)[t] <= 1
  {
    if s != [] {
      var init := s[..|s| - 1];
      assert s == init + [s[|s| - 1]];
      assert TestCommand.Distinct(init) && s[|s| - 1] !in init;
      DistinctCount(init);
    }
  }

  /** A sequence holding each test at most once is duplicate-free. */
  lemma CountDistinct(s: seq<TestId>)
    requires forall t :: multiset(s)[t] <= 1
    ensures TestCommand.Distinct(s)
  {
    forall a, b | 0 <= a < b < |s|
      ensures s[a] != s[b]
    {
      assert s == s[..a] + [s[a]] + s[a + 1..b] + [s[b]] + s[b + 1..];
      assert multiset{s[a], s[b]} <= multiset(s);
    }
  }

  /** The union of the partitions is the set of the given tests. */
  lemma ScheduleUnion(testIds: seq<TestId>, concurrency: nat, recorded: map<TestId, real>, groupOf: TestId -> Option<GroupId>)
    requires concurrency >= 1
    ensures var P := Schedule(testIds, concurrency, recorded, groupOf);
      forall t :: t in testIds <==> exists i :: 0 <= i < |P| && t in P[i]
  {
    var P := Schedule(testIds, concurrency, recorded, groupOf);
    ScheduleBag(testIds, concurrency, recorded, groupOf);
    FlattenMembers(P);
    assert forall t :: t in testIds <==> t in multiset(testIds);
    assert forall t :: t in Flatten(P) <==> t in multiset(Flatten(P));
  }

  /** Given each test once, every partition holds each of its tests once. */
  lemma ScheduleDistinct(testIds: seq<TestId>, concurrency: nat, recorded: map<TestId, real>, groupOf: TestId -> Option<GroupId>)
    requires concurrency >= 1 && TestCommand.Distinct(testIds)
    ensures var P := Schedule(testIds, concurrency, recorded, groupOf);
      forall i :: 0 <= i < |P| ==> TestCommand.Distinct(P[i])
  {
    var P := Schedule(testIds, concurrency, recorded, groupOf);
    ScheduleBag(testIds, concurrency, recorded, groupOf);
    DistinctCount(testIds);
    forall i | 0 <= i < |P|
      ensures TestCommand.Distinct(P[i])
    {
      FlattenPartBag(P, i);
      CountDistinct(P[i]);
    }
  }

  /** Round robin: the k-th group of unknown time lands in partition `k % concurrency`. */
  lemma ScheduleDealsUnknown(testIds: seq<TestId>, concurrency: nat, recorded: map<TestId, real>,
                             groupOf: TestId -> Option<GroupId>, k: nat, t: TestId)
    requires concurrency >= 1
    requires k < |Ranked(testIds, recorded, groupOf).unknown|
    requires t in MembersIn(Group(testIds, groupOf).members, Ranked(testIds, recorded, groupOf).unknown[k])
    ensures t in Schedule(testIds, concurrency, recorded, groupOf)[k % concurrency]
  {
    var m := Group(testIds, groupOf).members;
    var R := Ranked(testIds, recorded, groupOf);
    var st1 := Consume(InitialLoads(concurrency), ByDuration(R.timed), m);
    var st2 := Consume(st1, ByDuration(R.partial), m);
    DealPlaces(st2.parts, R.unknown, m);
  }

  /** A group whose every recorded duration is zero has no known time. */
  lemma {:induction false} KnownTimeZero(ms: seq<TestId>, times: Repository.TestTimes)
    requires forall t :: t in ms && t in times.known ==> times.known[t] == 0.0
    ensures KnownTime(ms, times) == 0.0
  {
    if ms != [] {
      KnownTimeZero(ms[..|ms| - 1], times);
    }
  }

  /** When every group is fully timed, nothing is partially timed and nothing is dealt. */
  lemma {:induction false} RankAllTimed(order: seq<GroupId>, m: map<GroupId, seq<TestId>>, times: Repository.TestTimes)
    requires forall g :: g in order ==> RankOf(MembersIn(m, g), times) == Timed
    ensures RankAll(order, m, times).partial == [] && RankAll(order, m, times).unknown == []
  {
    if order != [] {
      RankAllTimed(order[..|order| - 1], m, times);
    }
  }

  /** Ties on time go to the shortest partition, for a whole schedule: when every test was recorded
      with zero duration and no group holds more than `bound` tests, no partition holds more than
      `bound` tests more than another. */
  lemma ScheduleZeroDurations(testIds: seq<TestId>, concurrency: nat, recorded: map<TestId, real>,
                              groupOf: TestId -> Option<GroupId>, bound: nat)
    requires concurrency >= 1
    requires forall t :: t in testIds ==> t in recorded && recorded[t] == 0.0
    requires forall t :: t in testIds ==> |MembersOf(testIds, groupOf, GroupKey(groupOf, t))| <= bound
    ensures LengthsWithin(Schedule(testIds, concurrency, recorded, groupOf), bound)
  {
    var times := Repository.GetTestTimes((set t | t in testIds), recorded);
    var G := Group(testIds, groupOf);
    var m := G.members;
    var R := Ranked(testIds, recorded, groupOf);
    GroupOrder(testIds, groupOf);
    forall g | g in G.order
      ensures RankOf(MembersIn(m, g), times) == Timed
      ensures KnownTime(MembersIn(m, g), times) == 0.0 && |MembersIn(m, g)| <= bound
    {
      GroupMembers(testIds, groupOf, g);
      var ms := m[g];
      assert forall t :: t in ms ==> t in testIds;
      KnownTimeZero(ms, times);
      assert ms[0] in ms;
    }
    RankAllTimed(G.order, m, times);
    RankDistinct(G.order, m, times);
    var qt := ByDuration(R.timed);
    forall k | 0 <= k < |qt|
      ensures qt[k].duration == 0.0 && |MembersIn(m, qt[k].group)| <= bound
    {
      assert qt[k] in multiset(R.timed);
      var i :| 0 <= i < |R.timed| && R.timed[i] == qt[k];
      assert Keys(R.timed)[i] == qt[k].group;
      RankFiles(G.order, m, times, qt[k].group);
    }
    var st0 := InitialLoads(concurrency);
    ConsumeZeroDurations(st0, qt, m, bound);
  }

  /** Two partitions holding two tests between them, within one test of each other, hold one each. */
  lemma TwoBalanced(P: seq<seq<TestId>>)
    requires |P| == 2 && LengthsWithin(P, 1) && |Flatten(P)| == 2
    ensures |P[0]| == 1 && |P[1]| == 1
  {
    assert P[..1][..0] == [] && P[..1][0] == P[0];
    assert Flatten(P[..1]) == P[0];
    assert Flatten(P) == Flatten(P[..1]) + P[1];
  }

  /** The two tests `zero1` and `zero2`, both recorded at zero duration and split over two
      partitions, land one in each. */
  lemma ZeroDurationsSplit()
    ensures var P := Schedule(["zero1", "zero2"], 2, map["zero1" := 0.0, "zero2" := 0.0], _ => None);
      |P| == 2 && |P[0]| == 1 && |P[1]| == 1
  {
    var ids := ["zero1", "zero2"];
    var groupOf: TestId -> Option<GroupId> := _ => None;
    var recorded := map["zero1" := 0.0, "zero2" := 0.0];
    assert MembersOf(ids, groupOf, "zero1") == ["zero1"];
    assert MembersOf(ids, groupOf, "zero2") == ["zero2"];
    ScheduleZeroDurations(ids, 2, recorded, groupOf, 1);
    ScheduleBag(ids, 2, recorded, groupOf);
    var P := Schedule(ids, 2, recorded, groupOf);
    assert |multiset(ids)| == 2;
    TwoBalanced(P);
  }

  /** The round-robin loop: `zip(itertools.cycle(partitions), unknown)`, extending each partition in turn. */
  method DealGroups(parts: seq<seq<TestId>>, unknown: seq<GroupId>, m: map<GroupId, seq<TestId>>)
    returns (dealt: seq<seq<TestId>>)
    requires |parts| >= 1
    ensures dealt == Deal(parts, unknown, m)
  {
    dealt := parts;
    for k := 0 to |unknown|
      invariant dealt == Deal(parts, unknown[..k], m)
    {
      assert unknown[..k + 1][..k] == unknown[..k];
      var j := k % |parts|;
      dealt := dealt[j := dealt[j] + MembersIn(m, unknown[k])];
    }
    assert unknown[..|unknown|] == unknown;
  }

  /** `partition_tests(test_ids, concurrency)`; the repository's recorded durations and the group
      callback are parameters. */
  method PartitionTests(testIds: seq<TestId>, concurrency: nat, recorded: map<TestId, real>,
                        groupOf: TestId -> Option<GroupId>) returns (partitions: seq<seq<TestId>>)
    requires concurrency >= 1
    ensures partitions == Schedule(testIds, concurrency, recorded, groupOf)
    ensures |partitions| == concurrency
    ensures multiset(Flatten(partitions)) == multiset(testIds)
    ensures forall t :: t in testIds <==> exists i :: 0 <= i < |partitions| && t in partitions[i]
    ensures TestCommand.Distinct(testIds) ==> forall i :: 0 <= i < |partitions| ==> TestCommand.Distinct(partitions[i])
    ensures forall i, j, t, u ::
      (0 <= i < |partitions| && 0 <= j < |partitions| && t in partitions[i] && u in partitions[j] &&
       GroupKey(groupOf, t) == GroupKey(groupOf, u)) ==> i == j
  {
    var loads := InitialLoads(concurrency);
    var times := Repository.GetTestTimes((set t | t in testIds), recorded);
    var grouping := GroupTests(testIds, groupOf);
    var ranking := RankGroups(grouping, times);
    loads := ConsumeQueue(loads, ByDuration(ranking.timed), grouping.members);
    loads := ConsumeQueue(loads, ByDuration(ranking.partial), grouping.members);
    partitions := DealGroups(loads.parts, ranking.unknown, grouping.members);
    assert partitions == Schedule(testIds, concurrency, recorded, groupOf);
    ScheduleBag(testIds, concurrency, recorded, groupOf);
    ScheduleKeepsGroups(testIds, concurrency, recorded, groupOf);
    ScheduleUnion(testIds, concurrency, recorded, groupOf);
    if TestCommand.Distinct(testIds) {
      ScheduleDistinct(testIds, concurrency, recorded, groupOf);
    }
  }
}
