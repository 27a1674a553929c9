/** The pool of test-run instances, kept per profile as an available and an allocated set. */
module ComputeContext {
  import opened Wrappers

  /** A value handed to `Instance(...)`; only `None` and text are accepted. */
  datatype Arg = NoneArg | TextArg(text: string) | BytesArg(bytes: seq<bv8>) | NumberArg(n: int)

  /** A field of an instance: `None` or text. */
  type Name = Option<string>

  datatype Instance = Instance(profile: Name, id: Name)

  datatype Error =
    | ValueError(bad: Arg)   // `Instance` given an argument that is neither None nor text
    | KeyError               // popping from an empty set, or removing a missing instance

  predicate Accepted(a: Arg) {
    a.NoneArg? || a.TextArg?
  }

  function NameOf(a: Arg): Name
    requires Accepted(a)
  {
    if a.TextArg? then Some(a.text) else None
  }

  function ArgOf(n: Name): Arg {
    if n.Some? then TextArg(n.value) else NoneArg
  }

  /** `Instance(profile, id)`: checks the arguments in order and rejects the first that is not None or text. */
  function MakeInstance(profile: Arg, id: Arg): (r: Result<Instance, Error>)
    ensures r.Ok? <==> Accepted(profile) && Accepted(id)
    ensures r.Ok? ==> r.value.profile == NameOf(profile) && r.value.id == NameOf(id)
    ensures r.Err? ==> r.error == ValueError(if Accepted(profile) then id else profile)
  {
    if !Accepted(profile) then Err(ValueError(profile))
    else if !Accepted(id) then Err(ValueError(id))
    else Ok(Instance(NameOf(profile), NameOf(id)))
  }

  /** An instance's own fields are always accepted and rebuild it. */
  lemma MakeInstanceOfFields(i: Instance)
    ensures MakeInstance(ArgOf(i.profile), ArgOf(i.id)) == Ok(i)
  {
  }

  /** Text arguments are always accepted, whatever they hold. */
  lemma TextIsAccepted(profile: string, id: string)
    ensures MakeInstance(TextArg(profile), TextArg(id)) == Ok(Instance(Some(profile), Some(id)))
  {
  }

  /** The set a defaultdict of sets holds for a profile: the empty set when the profile is missing. */
  function SetOf(m: map<Name, set<Instance>>, p: Name): set<Instance> {
    if p in m then m[p] else {}
  }

  class Cache {
    /** `_available` and `_allocated`: a profile missing from a map has the empty set. */
    var availableBy: map<Name, set<Instance>>
    var allocatedBy: map<Name, set<Instance>>

    function Available(p: Name): set<Instance>
      reads this
    {
      SetOf(availableBy, p)
    }

    function Allocated(p: Name): set<Instance>
      reads this
    {
      SetOf(allocatedBy, p)
    }

    /** Every instance is filed under its own profile. */
    ghost predicate Valid()
      reads this
    {
      (forall p :: p in availableBy ==> forall i :: i in availableBy[p] ==> i.profile == p) &&
      (forall p :: p in allocatedBy ==> forall i :: i in allocatedBy[p] ==> i.profile == p)
    }

    /** No instance is both available and allocated. */
    ghost predicate Disjoint()
      reads this
    {
      forall p :: SetOf(availableBy, p) !! SetOf(allocatedBy, p)
    }

    /** `size(profile)`: the number of available plus the number of allocated instances of the
        profile; while no instance is in both, that is the number of distinct instances. */
    function Size(p: Name): (n: nat)
      reads this
      ensures n == |Available(p)| + |Allocated(p)|
      ensures Disjoint() ==> n == |Available(p) + Allocated(p)|
    {
      |Available(p)| + |Allocated(p)|
    }

    constructor ()
      ensures availableBy == map[] && allocatedBy == map[]
      ensures Valid() && Disjoint()
    {
      availableBy, allocatedBy := map[], map[];
    }

    /** `add(instance)`: makes the instance available under its profile; nothing else changes. */
    method Add(i: Instance)
      requires Valid()
      modifies this
      ensures Valid()
      ensures Available(i.profile) == old(Available(i.profile)) + {i}
      ensures forall p :: p != i.profile ==> SetOf(availableBy, p) == SetOf(old(availableBy), p)
      ensures allocatedBy == old(allocatedBy)
      ensures old(Disjoint()) && i !in old(Allocated(i.profile)) ==> Disjoint()
      ensures old(Disjoint()) && i !in old(Allocated(i.profile)) ==>
        Size(i.profile) == old(Size(i.profile)) + (if i in old(Available(i.profile)) then 0 else 1)
    {
      ghost var before := Available(i.profile);
      availableBy := availableBy[i.profile := Available(i.profile) + {i}];
      if i !in before {
        assert |before + {i}| == |before| + 1;
      } else {
        assert before + {i} == before;
      }
    }

    /** `allocate(profile)`: moves some available instance of the profile to allocated and returns it;
        with none available the pop raises and nothing changes. */
    method Allocate(p: Name) returns (r: Result<Instance, Error>)
      requires Valid()
      modifies this
      ensures Valid()
      ensures r.Err? <==> old(Available(p)) == {}
      ensures r.Err? ==> r.error == KeyError && availableBy == old(availableBy) && allocatedBy == old(allocatedBy)
      ensures r.Ok? ==> r.value.profile == p && r.value in old(Available(p))
      ensures r.Ok? ==> Available(p) == old(Available(p)) - {r.value}
      ensures r.Ok? ==> Allocated(p) == old(Allocated(p)) + {r.value}
      ensures forall q :: q != p ==> SetOf(availableBy, q) == SetOf(old(availableBy), q)
      ensures forall q :: q != p ==> SetOf(allocatedBy, q) == SetOf(old(allocatedBy), q)
      ensures old(Disjoint()) ==> Disjoint() && Size(p) == old(Size(p))
    {
      if Available(p) == {} {
        return Err(KeyError);
      }
      var i :| i in Available(p);
      ghost var A, B := Available(p), Allocated(p);
      availableBy := availableBy[p := Available(p) - {i}];
      allocatedBy := allocatedBy[p := Allocated(p) + {i}];
      r := Ok(i);
      assert |A - {i}| == |A| - 1;
      if i !in B {
        assert |B + {i}| == |B| + 1;
      }
    }

    /** `release(instance)`: moves an allocated instance back to available; an instance that is not
        allocated raises and nothing changes. */
    method Release(i: Instance) returns (r: Result<(), Error>)
      requires Valid()
      modifies this
      ensures Valid()
      ensures r.Ok? <==> i in old(Allocated(i.profile))
      ensures r.Err? ==> r.error == KeyError && availableBy == old(availableBy) && allocatedBy == old(allocatedBy)
      ensures r.Ok? ==> Allocated(i.profile) == old(Allocated(i.profile)) - {i}
      ensures r.Ok? ==> Available(i.profile) == old(Available(i.profile)) + {i}
      ensures forall q :: q != i.profile ==> SetOf(availableBy, q) == SetOf(old(availableBy), q)
      ensures forall q :: q != i.profile ==> SetOf(allocatedBy, q) == SetOf(old(allocatedBy), q)
      ensures old(Disjoint()) ==> Disjoint() && Size(i.profile) == old(Size(i.profile))
    {
      if i !in Allocated(i.profile) {
        return Err(KeyError);
      }
      ghost var A, B := Available(i.profile), Allocated(i.profile);
      allocatedBy := allocatedBy[i.profile := Allocated(i.profile) - {i}];
      availableBy := availableBy[i.profile := Available(i.profile) + {i}];
      r := Ok(());
      assert |B - {i}| == |B| - 1;
      if i !in A {
        assert |A + {i}| == |A| + 1;
      }
    }

    /** `remove(instance)`: forgets an allocated instance; an instance that is not allocated raises
        and nothing changes. */
    method Remove(i: Instance) returns (r: Result<(), Error>)
      requires Valid()
      modifies this
      ensures Valid()
      ensures r.Ok? <==> i in old(Allocated(i.profile))
      ensures r.Err? ==> r.error == KeyError && availableBy == old(availableBy) && allocatedBy == old(allocatedBy)
      ensures r.Ok? ==> Allocated(i.profile) == old(Allocated(i.profile)) - {i}
      ensures availableBy == old(availableBy)
      ensures forall q :: q != i.profile ==> SetOf(allocatedBy, q) == SetOf(old(allocatedBy), q)
      ensures old(Disjoint()) ==> Disjoint()
      ensures old(Disjoint()) && r.Ok? ==> Size(i.profile) == old(Size(i.profile)) - 1
    {
      if i !in Allocated(i.profile) {
        return Err(KeyError);
      }
      ghost var B := Allocated(i.profile);
      allocatedBy := allocatedBy[i.profile := Allocated(i.profile) - {i}];
      r := Ok(());
      assert |B - {i}| == |B| - 1;
    }

    /** `all()`: every instance held, available or allocated, in any profile. */
    function All(): (r: set<Instance>)
      reads this
      requires Valid()
      ensures forall i :: i in r <==> i in Available(i.profile) || i in Allocated(i.profile)
    {
      (set p, i | p in availableBy && i in availableBy[p] :: i) +
      (set p, i | p in allocatedBy && i in allocatedBy[p] :: i)
    }
  }

  /** The sequence of calls made by the source's own smoke test ends with an empty pool. */
  method SmokeScenario() returns (sizes: seq<nat>)
    ensures sizes == [1, 1, 0]
  {
    var cache := new Cache();
    var instance := Instance(Some("profile"), Some("1"));
    cache.Add(instance);
    var early := cache.Remove(instance);
    assert early == Err(KeyError);
    var a := cache.Allocate(Some("profile"));
    assert a == Ok(instance);
    var rel := cache.Release(instance);
    assert rel.Ok?;
    var s1 := cache.Size(Some("profile"));
    var b := cache.Allocate(Some("profile"));
    assert b == Ok(instance);
    var s2 := cache.Size(Some("profile"));
    var gone := cache.Remove(instance);
    assert gone.Ok?;
    var s3 := cache.Size(Some("profile"));
    var late := cache.Remove(instance);
    assert late == Err(KeyError);
    sizes := [s1, s2, s3];
  }
}
