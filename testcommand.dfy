/**
 * Test-id bookkeeping of the test command: attaching profiles to ids, selecting the ids of one
 * profile, filtering by regular expressions, merging per-profile listings, reading the profile
 * callouts, and the defaulting done by `TestCommand.setUp`.
 */
module TestCommand {
  import opened Wrappers
  import opened Strings

  type TestId = string
  type Profile = string

  /** The metadata dict of one test id: `{'profiles': [...]}`. */
  datatype TestMeta = TestMeta(profiles: seq<Profile>)

  /** A test ids dict (its key order is not modelled). */
  type TestIds = map<TestId, TestMeta>

  predicate Distinct<T(==)>(s: seq<T>) {
    forall i, j :: 0 <= i < j < |s| ==> s[i] != s[j]
  }

  /** `apply_profiles`: every id gets its own list of the distinct profiles. */
  method ApplyProfiles(profiles: seq<Profile>, testIds: seq<TestId>) returns (r: TestIds)
    ensures r.Keys == set t | t in testIds
    ensures forall t :: t in r ==>
      Distinct(r[t].profiles) && forall p :: p in r[t].profiles <==> p in profiles
  {
    var profileSet := set p | p in profiles;
    r := map[];
    var i := 0;
    while i < |testIds|
      invariant 0 <= i <= |testIds|
      invariant r.Keys == set t | t in testIds[..i]
      invariant forall t :: t in r ==>
        Distinct(r[t].profiles) && forall p :: p in r[t].profiles <==> p in profiles
    {
      var listed := ListOf(profileSet);
      r := r[testIds[i] := TestMeta(listed)];
      assert testIds[..i + 1] == testIds[..i] + [testIds[i]];
      i := i + 1;
    }
    assert testIds[..i] == testIds;
  }

  /** `_profile_tests`: the ids whose profiles include `profile`, sorted. */
  method ProfileTests(testIds: TestIds, profile: Profile) returns (r: seq<TestId>)
    ensures StrictlySorted(r)
    ensures forall t :: t in r <==> t in testIds && profile in testIds[t].profiles
  {
    var chosen: set<TestId> := {};
    var rest := testIds.Keys;
    while rest != {}
      invariant rest <= testIds.Keys
      invariant forall t :: t in chosen <==>
        t in testIds && t !in rest && profile in testIds[t].profiles
      decreases |rest|
    {
      var t :| t in rest;
      if profile in testIds[t].profiles {
        chosen := chosen + {t};
      }
      rest := rest - {t};
    }
    r := SortedStrings(chosen);
  }

  /** Some filter finds a match in `t` (`pred.search(test_id)` for some compiled filter). */
  predicate Matched(filters: seq<string>, search: (string, TestId) -> bool, t: TestId) {
    exists i :: 0 <= i < |filters| && search(filters[i], t)
  }

  /** `include` in `filter_tests`: tries the filters in order and stops at the first match. */
  method Include(filters: seq<string>, search: (string, TestId) -> bool, t: TestId) returns (b: bool)
    ensures b <==> Matched(filters, search, t)
  {
    for i := 0 to |filters|
      invariant forall k :: 0 <= k < i ==> !search(filters[k], t)
    {
      if search(filters[i], t) {
        return true;
      }
    }
    return false;
  }

  /** `filter_tests`: no filters keeps everything; otherwise an id stays when any filter matches it,
      and it keeps its metadata. The regular-expression engine is the parameter `search`. */
  method FilterTests(testIds: TestIds, filters: Option<seq<string>>, search: (string, TestId) -> bool)
    returns (r: TestIds)
    ensures filters == None ==> r == testIds
    ensures filters.Some? ==> forall t :: t in r <==> t in testIds && Matched(filters.value, search, t)
    ensures forall t :: t in r ==> t in testIds && r[t] == testIds[t]
  {
    if filters == None {
      return testIds;
    }
    r := map[];
    var rest := testIds.Keys;
    while rest != {}
      invariant rest <= testIds.Keys
      invariant forall t :: t in r <==> t in testIds && t !in rest && Matched(filters.value, search, t)
      invariant forall t :: t in r ==> t in testIds && r[t] == testIds[t]
      decreases |rest|
    {
      var t :| t in rest;
      var keep := Include(filters.value, search, t);
      if keep {
        r := r[t := testIds[t]];
      }
      rest := rest - {t};
    }
  }

  /** The number of times `t` occurs in `ids`. */
  function Occurrences(t: TestId, ids: seq<TestId>): (n: nat)
    ensures n <= |ids|
    ensures n == 0 <==> t !in ids
  {
    if ids == [] then 0
    else Occurrences(t, ids[..|ids| - 1]) + (if ids[|ids| - 1] == t then 1 else 0)
  }

  function Repeat(p: Profile, n: nat): (r: seq<Profile>)
    ensures |r| == n && forall i :: 0 <= i < n ==> r[i] == p
  {
    seq(n, _ => p)
  }

  /** The ids a profile's listing command printed, or `None` when it exited non-zero. */
  function Listed(listing: Profile -> Option<seq<TestId>>, p: Profile): seq<TestId> {
    listing(p).GetOr([])
  }

  /** The profiles `t` is listed under, in query order, once per line of each listing. */
  function ListedUnder(profiles: seq<Profile>, listing: Profile -> Option<seq<TestId>>, t: TestId): seq<Profile>
  {
    if profiles == [] then []
    else
      var p := profiles[|profiles| - 1];
      ListedUnder(profiles[..|profiles| - 1], listing, t) + Repeat(p, Occurrences(t, Listed(listing, p)))
  }

  /** A profile appears in `ListedUnder` exactly when it was queried and its listing has `t`. */
  lemma {:induction false} ListedUnderMembership(profiles: seq<Profile>, listing: Profile -> Option<seq<TestId>>, t: TestId, p: Profile)
    ensures p in ListedUnder(profiles, listing, t) <==> p in profiles && t in Listed(listing, p)
  {
    if profiles != [] {
      var init := profiles[..|profiles| - 1];
      var q := profiles[|profiles| - 1];
      ListedUnderMembership(init, listing, t, p);
      assert profiles == init + [q];
      var extra := Repeat(q, Occurrences(t, Listed(listing, q)));
      assert p in extra <==> p == q && t in Listed(listing, q) by {
        if p in extra {
          var k :| 0 <= k < |extra| && extra[k] == p;
        }
        if p == q && t in Listed(listing, q) {
          assert extra[0] == p;
        }
      }
    }
  }

  /** The profiles whose listing includes `t`, in query order: what `ListedUnder` gives when no
      profile is queried twice and no listing repeats an id. */
  function ProfilesListing(profiles: seq<Profile>, listing: Profile -> Option<seq<TestId>>, t: TestId): seq<Profile>
  {
    if profiles == [] then []
    else
      var p := profiles[|profiles| - 1];
      ProfilesListing(profiles[..|profiles| - 1], listing, t) + (if t in Listed(listing, p) then [p] else [])
  }

  lemma {:induction false} OccurrencesOfDistinct(t: TestId, ids: seq<TestId>)
    requires Distinct(ids)
    ensures Occurrences(t, ids) == if t in ids then 1 else 0
  {
    if ids != [] {
      var init := ids[..|ids| - 1];
      assert Distinct(init);
      OccurrencesOfDistinct(t, init);
      assert ids == init + [ids[|ids| - 1]];
    }
  }

  /** With duplicate-free listings each id lists every profile that has it once. */
  lemma {:induction false} ListedUnderOfDistinctListings(profiles: seq<Profile>, listing: Profile -> Option<seq<TestId>>, t: TestId)
    requires forall i :: 0 <= i < |profiles| ==> Distinct(Listed(listing, profiles[i]))
    ensures ListedUnder(profiles, listing, t) == ProfilesListing(profiles, listing, t)
  {
    if profiles != [] {
      var init := profiles[..|profiles| - 1];
      var p := profiles[|profiles| - 1];
      assert forall i :: 0 <= i < |init| ==> init[i] == profiles[i];
      ListedUnderOfDistinctListings(init, listing, t);
      OccurrencesOfDistinct(t, Listed(listing, p));
      if t in Listed(listing, p) {
        assert Repeat(p, 1) == [p];
      } else {
        assert Repeat(p, 0) == [];
      }
    }
  }

  datatype ListError =
    | ListOptMissing            // "LISTOPT not configured in .testr.conf"
    | ListingFailed(profile: Profile)   // "Non-zero exit code ... from test listing."

  /** The profiles recorded for `t` so far (`[]` before its first listing). */
  function ProfilesOf(m: TestIds, t: TestId): seq<Profile> {
    if t in m then m[t].profiles else []
  }

  /** The inner loop of `list_tests`: appends `profile` to each listed id's metadata, creating the
      metadata on first sight. */
  function AddListing(m: TestIds, profile: Profile, ids: seq<TestId>): TestIds {
    if ids == [] then m
    else
      var before := AddListing(m, profile, ids[..|ids| - 1]);
      var t := ids[|ids| - 1];
      before[t := TestMeta(ProfilesOf(before, t) + [profile])]
  }

  /** Each listing line adds one copy of the profile, at the end of the id's profiles. */
  lemma {:induction false} AddListingProfiles(m: TestIds, profile: Profile, ids: seq<TestId>, t: TestId)
    ensures ProfilesOf(AddListing(m, profile, ids), t) == ProfilesOf(m, t) + Repeat(profile, Occurrences(t, ids))
  {
    if ids != [] {
      var init := ids[..|ids| - 1];
      var u := ids[|ids| - 1];
      AddListingProfiles(m, profile, init, t);
      var n := Occurrences(t, init);
      if u == t {
        assert Repeat(profile, n + 1) == Repeat(profile, n) + [profile];
      }
    }
  }

  /** A listing creates an entry for every id it prints, and the entry is never empty. */
  lemma {:induction false} AddListingKeys(m: TestIds, profile: Profile, ids: seq<TestId>, t: TestId)
    requires t in m ==> m[t].profiles != []
    ensures t in AddListing(m, profile, ids) <==> t in m || t in ids
    ensures t in AddListing(m, profile, ids) ==> AddListing(m, profile, ids)[t].profiles != []
  {
    if ids != [] {
      var init := ids[..|ids| - 1];
      AddListingKeys(m, profile, init, t);
      assert ids == init + [ids[|ids| - 1]];
    }
  }

  /** The inner loop of `list_tests`, over the ids one profile's listing printed. */
  method AppendListing(m: TestIds, profile: Profile, ids: seq<TestId>) returns (r: TestIds)
    ensures r == AddListing(m, profile, ids)
  {
    r := m;
    for j := 0 to |ids|
      invariant r == AddListing(m, profile, ids[..j])
    {
      var t := ids[j];
      var meta := if t in r then r[t] else TestMeta([]);
      r := r[t := TestMeta(meta.profiles + [profile])];
      assert ids[..j + 1][..j] == ids[..j];
    }
    assert ids[..|ids|] == ids;
  }

  /** `list_tests`: refuses a template without `$LISTOPT`; otherwise queries each profile in turn and
      appends the profile to an id's metadata once per time the listing printed it. The first
      listing that fails aborts the whole call. */
  method ListTests(template: string, profiles: seq<Profile>, listing: Profile -> Option<seq<TestId>>)
    returns (r: Result<TestIds, ListError>)
    ensures !Contains(template, "$LISTOPT") <==> r == Err(ListOptMissing)
    ensures r.Err? && r.error.ListingFailed? ==>
      exists k :: 0 <= k < |profiles| && profiles[k] == r.error.profile && listing(profiles[k]).None? &&
                  forall j :: 0 <= j < k ==> listing(profiles[j]).Some?
    ensures r.Ok? <==> Contains(template, "$LISTOPT") && forall k :: 0 <= k < |profiles| ==> listing(profiles[k]).Some?
    ensures r.Ok? ==> forall t :: t in r.value <==> ListedUnder(profiles, listing, t) != []
    ensures r.Ok? ==> forall t :: t in r.value ==> r.value[t].profiles == ListedUnder(profiles, listing, t)
  {
    if !Contains(template, "$LISTOPT") {
      return Err(ListOptMissing);
    }
    var result: TestIds := map[];
    var i := 0;
    while i < |profiles|
      invariant 0 <= i <= |profiles|
      invariant forall k :: 0 <= k < i ==> listing(profiles[k]).Some?
      invariant forall t :: ProfilesOf(result, t) == ListedUnder(profiles[..i], listing, t)
      invariant forall t :: t in result ==> result[t].profiles != []
    {
      var profile := profiles[i];
      var listed := listing(profile);
      if listed.None? {
        return Err(ListingFailed(profile));
      }
      var ids := listed.value;
      ghost var before := result;
      result := AppendListing(result, profile, ids);
      assert profiles[..i + 1][..i] == profiles[..i];
      forall t
        ensures ProfilesOf(result, t) == ListedUnder(profiles[..i + 1], listing, t)
        ensures t in result ==> result[t].profiles != []
      {
        AddListingProfiles(before, profile, ids, t);
        AddListingKeys(before, profile, ids, t);
      }
      i := i + 1;
    }
    assert profiles[..i] == profiles;
    return Ok(result);
  }

  /** `_default_profiles`: the whitespace-separated words of the callout's output, or none when the
      option is not configured (`None`). */
  function DefaultProfiles(out: Option<string>): (r: seq<Profile>)
    ensures out == None ==> r == []
    ensures forall i :: 0 <= i < |r| ==> r[i] != [] && HasNoSpace(r[i])
  {
    match out
    case None => []
    case Some(s) => Words(s)
  }

  /** `_list_profiles`: the same words as a set. */
  function ListProfiles(out: Option<string>): (r: set<Profile>)
    ensures forall p :: p in r <==> p in DefaultProfiles(out)
  {
    set p | p in DefaultProfiles(out)
  }

  /** A callout printing profile names separated by any whitespace, such as one per line, and with
      any whitespace around them, gives back exactly those names. */
  lemma DefaultProfilesOfOutput(names: seq<Profile>, sep: string, lead: string, trail: string)
    requires forall i :: 0 <= i < |names| ==> names[i] != [] && HasNoSpace(names[i])
    requires sep != [] && AllSpace(sep) && AllSpace(lead) && AllSpace(trail)
    ensures DefaultProfiles(Some(lead + Join(sep, names) + trail)) == names
    ensures ListProfiles(Some(lead + Join(sep, names) + trail)) == set p | p in names
  {
    WordsJoinWith(names, sep, lead, trail);
  }

  /** Python truthiness of an optional integer: neither `None` nor 0. */
  predicate Truthy(n: Option<int>) {
    n.Some? && n.value != 0
  }

  /** An optional count that is absent or not negative. */
  predicate NonNegative(n: Option<int>) {
    n.Some? ==> n.value >= 0
  }

  /** The concurrency `setUp` settles on: 1 outside parallel mode; otherwise the first truthy value
      of the option, the callout and the local CPU count, falling back to 1. */
  function ResolveConcurrency(parallel: bool, option: Option<int>, callout: Option<int>, local: Option<int>): (c: int)
    ensures c != 0
    ensures NonNegative(option) && NonNegative(callout) && NonNegative(local) ==> c >= 1
    ensures !parallel ==> c == 1
    ensures parallel && Truthy(option) ==> c == option.value
    ensures parallel && !Truthy(option) && Truthy(callout) ==> c == callout.value
    ensures parallel && !Truthy(option) && !Truthy(callout) && Truthy(local) ==> c == local.value
    ensures parallel && !Truthy(option) && !Truthy(callout) && !Truthy(local) ==> c == 1
  {
    if !parallel then 1
    else if Truthy(option) then option.value
    else if Truthy(callout) then callout.value
    else if Truthy(local) then local.value
    else 1
  }

  /** The profiles `setUp` settles on: the constructor's profiles when non-empty, else the
      `list_profiles` callout, else the single profile `DEFAULT`. */
  function ResolveProfiles(given: Option<set<Profile>>, listOut: Option<string>): (r: set<Profile>)
    ensures r != {}
    ensures given.Some? && given.value != {} ==> r == given.value
    ensures (given == None || given.value == {}) && ListProfiles(listOut) != {} ==> r == ListProfiles(listOut)
    ensures (given == None || given.value == {}) && ListProfiles(listOut) == {} ==> r == {"DEFAULT"}
  {
    var found := if given.Some? && given.value != {} then given.value else ListProfiles(listOut);
    if found == {} then {"DEFAULT"} else found
  }

  /** `TestCommand`; only the state `setUp` establishes is modelled. */
  class TestCommand {
    const givenProfiles: Option<set<Profile>>
    var concurrency: int
    var profiles: set<Profile>
    var defaultProfiles: seq<Profile>

    constructor (profiles: Option<set<Profile>>)
      ensures givenProfiles == profiles
    {
      givenProfiles := profiles;
    }

    /** `setUp`; the results of the callouts and of `multiprocessing.cpu_count()` are parameters. */
    method SetUp(parallel: bool, optionConcurrency: Option<int>, calloutConcurrency: Option<int>,
                 localConcurrency: Option<int>, listProfilesOut: Option<string>, defaultProfilesOut: Option<string>)
      modifies this
      ensures concurrency == ResolveConcurrency(parallel, optionConcurrency, calloutConcurrency, localConcurrency)
      ensures profiles == ResolveProfiles(givenProfiles, listProfilesOut)
      ensures DefaultProfiles(defaultProfilesOut) != [] ==> defaultProfiles == DefaultProfiles(defaultProfilesOut)
      ensures DefaultProfiles(defaultProfilesOut) == [] ==>
        Distinct(defaultProfiles) && forall p :: p in defaultProfiles <==> p in profiles
      ensures defaultProfiles != []
    {
      var c: int;
      if !parallel {
        c := 1;
      } else {
        c := optionConcurrency.GetOr(0);
        if c == 0 {
          c := calloutConcurrency.GetOr(0);
        }
        if c == 0 {
          c := localConcurrency.GetOr(0);
        }
        if c == 0 {
          c := 1;
        }
      }
      assert c == ResolveConcurrency(parallel, optionConcurrency, calloutConcurrency, localConcurrency);
      var ps := if givenProfiles.Some? && givenProfiles.value != {} then givenProfiles.value
                else ListProfiles(listProfilesOut);
      var ds := DefaultProfiles(defaultProfilesOut);
      if ps == {} {
        ps := {"DEFAULT"};
      }
      assert ps == ResolveProfiles(givenProfiles, listProfilesOut);
      if ds == [] {
        ds := ListOf(ps);
      }
      concurrency, profiles, defaultProfiles := c, ps, ds;
    }
  }
}
