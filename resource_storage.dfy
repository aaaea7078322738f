/**
 * `ResourceStorage` (scripts/resource/resourceStorage.ts): a registry of
 * resources by name with a running count, which is destroyed for good by
 * `destroy` (the dictionary becomes null).
 *
 * The resources themselves are values of a type parameter; what
 * `load`/`release`/`destroy` do to a member belongs to the `Resource` base
 * class, which is not part of this model, so those calls are recorded in
 * `invocations`, and whether a member is loaded is the function `isLoaded`.
 * `for (name in resources)` visits the names in insertion order, kept in
 * `names`.
 */
module Resources {
  import opened Wrappers

  datatype Operation = Load | Release | Destroy

  /** `resources[name].load()` and the like. */
  datatype Invocation = Invocation(operation: Operation, name: string)

  /** The calls of one loop over `names`. */
  function InvokeAll(operation: Operation, names: seq<string>): (r: seq<Invocation>)
    ensures |r| == |names| && forall i :: 0 <= i < |names| ==> r[i] == Invocation(operation, names[i])
  {
    seq(|names|, i requires 0 <= i < |names| => Invocation(operation, names[i]))
  }

  predicate Distinct(s: seq<string>) {
    forall i, j :: 0 <= i < j < |s| ==> s[i] != s[j]
  }

  /** `s` without `x`. */
  function Without(s: seq<string>, x: string): (r: seq<string>)
    ensures forall y :: y in r <==> y in s && y != x
    ensures Distinct(s) ==> Distinct(r)
    ensures Distinct(s) && x in s ==> |r| == |s| - 1
    ensures x !in s ==> r == s
  {
    if s == [] then []
    else
      assert Distinct(s) ==> Distinct(s[1..]) && s[0] !in s[1..];
      if s[0] == x then Without(s[1..], x)
      else [s[0]] + Without(s[1..], x)
  }

  const InvalidResourceMessage: string := "Invalid resource"
  const NameExistsMessage: string := "Name already exists"

  class ResourceStorage<R> {
    /** `_count` */
    var count: int
    /** `resources === null` */
    var destroyed: bool
    var resources: map<string, R>
    var names: seq<string>
    var invocations: seq<Invocation>

    /** Before `destroy` the count is the number of names, and `names` lists each key once. */
    ghost predicate Valid()
      reads this
    {
      && (destroyed ==> resources == map[] && names == [])
      && (!destroyed ==> count == |resources|)
      && Distinct(names) && (forall n :: n in names <==> n in resources)
      && |names| == |resources|
    }

    constructor()
      ensures Valid() && count == 0 && !destroyed && resources == map[] && names == [] && invocations == []
    {
      count, destroyed, resources, names, invocations := 0, false, map[], [], [];
    }

    /** `contains` */
    function Contains(name: string): (r: bool)
      reads this
      ensures r ==> !destroyed
    {
      !destroyed && name in resources
    }

    /** `get`: the resource, or null when absent or destroyed. */
    function Get(name: string): (r: Option<R>)
      reads this
      ensures r.Some? <==> Contains(name)
      ensures r.Some? ==> r.value == resources[name]
    {
      if !destroyed && name in resources then Some(resources[name]) else None
    }

    /**
     * `add`: an empty name, a null resource or a destroyed registry is
     * invalid; a known name is refused; otherwise insert and count.
     */
    method Add(name: string, resource: Option<R>) returns (r: Outcome)
      requires Valid()
      modifies this`resources, this`names, this`count
      ensures Valid()
      ensures name == [] || resource.None? || destroyed ==>
        r == Fail(InvalidResourceMessage) && resources == old(resources) && count == old(count)
      ensures name != [] && resource.Some? && !destroyed && name in old(resources) ==>
        r == Fail(NameExistsMessage) && resources == old(resources) && count == old(count)
      ensures name != [] && resource.Some? && !destroyed && name !in old(resources) ==>
        && r == Pass && resources == old(resources)[name := resource.value] && count == old(count) + 1
        && names == old(names) + [name]
        && Get(name) == resource
      ensures r.Fail? ==> names == old(names)
    {
      if name == [] || resource.None? || destroyed {
        return Fail(InvalidResourceMessage);
      }
      if name in resources {
        return Fail(NameExistsMessage);
      }
      resources := resources[name := resource.value];
      names := names + [name];
      count := count + 1;
      r := Pass;
    }

    /** `getAndRemove`: take a present resource out, or return null. */
    method GetAndRemove(name: string) returns (r: Option<R>)
      requires Valid()
      modifies this`resources, this`names, this`count
      ensures Valid()
      ensures r == old(Get(name))
      ensures r.Some? ==> resources == old(resources) - {name} && count == old(count) - 1 && names == Without(old(names), name)
      ensures r.None? ==> resources == old(resources) && count == old(count) && names == old(names)
      ensures !Contains(name)
    {
      if destroyed || name !in resources {
        return None;
      }
      r := Some(resources[name]);
      resources := resources - {name};
      names := Without(names, name);
      count := count - 1;
    }

    /**
     * `loaded`: false once destroyed or when some member is unloaded,
     * otherwise whether the count is non-zero.
     */
    method IsLoaded(isLoaded: R -> bool) returns (r: bool)
      requires Valid()
      ensures r <==> !destroyed && count != 0 && forall n :: n in resources ==> isLoaded(resources[n])
      ensures r <==> !destroyed && resources != map[] && forall n :: n in resources ==> isLoaded(resources[n])
    {
      if destroyed {
        return false;
      }
      for i := 0 to |names|
        invariant forall j :: 0 <= j < i ==> isLoaded(resources[names[j]])
      {
        if !isLoaded(resources[names[i]]) {
          return false;
        }
      }
      forall n | n in resources ensures isLoaded(resources[n]) {
        var j :| 0 <= j < |names| && names[j] == n;
      }
      r := count != 0;
    }

    /** One call of `operation` per member, in `names` order: the loops of `load` and `release`. */
    method InvokeMembers(operation: Operation)
      requires Valid()
      modifies this`invocations
      ensures invocations == old(invocations) + (if destroyed then [] else InvokeAll(operation, names))
    {
      if destroyed {
        return;
      }
      for i := 0 to |names|
        invariant invocations == old(invocations) + InvokeAll(operation, names[..i])
      {
        invocations := invocations + [Invocation(operation, names[i])];
        assert names[..i + 1] == names[..i] + [names[i]];
      }
      assert names[..|names|] == names;
    }

    /** `load` */
    method LoadAll()
      requires Valid()
      modifies this`invocations
      ensures invocations == old(invocations) + (if destroyed then [] else InvokeAll(Load, names))
    {
      InvokeMembers(Load);
    }

    /** `release` */
    method ReleaseAll()
      requires Valid()
      modifies this`invocations
      ensures invocations == old(invocations) + (if destroyed then [] else InvokeAll(Release, names))
    {
      InvokeMembers(Release);
    }

    /**
     * `destroy`: destroy every member, then drop the dictionary. Once
     * destroyed, a second call does nothing; the count is not reset.
     */
    method DestroyAll()
      requires Valid()
      modifies this
      ensures Valid() && destroyed && resources == map[] && names == [] && count == old(count)
      ensures invocations == old(invocations) + (if old(destroyed) then [] else InvokeAll(Destroy, old(names)))
    {
      if destroyed {
        return;
      }
      InvokeMembers(Destroy);
      destroyed := true;
      resources := map[];
      names := [];
    }
  }

  /** Names with a count: `InvokeAll` calls each name of the registry exactly once. */
  lemma InvokeAllOnce(operation: Operation, names: seq<string>, name: string)
    requires Distinct(names)
    ensures name in names ==> |set i | 0 <= i < |names| && InvokeAll(operation, names)[i].name == name| == 1
    ensures name !in names ==> forall c :: c in InvokeAll(operation, names) ==> c.name != name
  {
    var calls := InvokeAll(operation, names);
    if name in names {
      var k :| 0 <= k < |names| && names[k] == name;
      assert (set i | 0 <= i < |names| && calls[i].name == name) == {k};
    }
  }
}
