/**
 * The material library node that receives one subnet per material, and the
 * name the subnet is given. Only the names of the library's children are
 * kept: both versions look children up by name and destroy the one that
 * carries the name about to be created.
 */
module Library {
  import opened Options
  import opened Seqs

  /** `material + "_" + Size` when the material has a size tag, else the material. */
  function MaterialName(material: string, size: Option<string>): (r: string)
    ensures size.None? ==> r == material
    ensures size.Some? ==> |r| == |material| + 1 + |size.value|
    ensures size.Some? ==> r[..|material|] == material && r[|material|] == '_' && r[|material| + 1..] == size.value
  {
    if size.Some? then material + "_" + size.value else material
  }

  /** The children left after destroying the first child called `x` (`node(x).destroy()`). */
  function RemoveFirst(s: seq<string>, x: string): seq<string>
    decreases |s|
  {
    if s == [] then []
    else if s[0] == x then s[1..]
    else [s[0]] + RemoveFirst(s[1..], x)
  }

  /** One child called `x` is gone, when there was one, and nothing else. */
  lemma {:induction false} RemoveFirstCount(s: seq<string>, x: string)
    ensures multiset(RemoveFirst(s, x)) + (if x in s then multiset{x} else multiset{}) == multiset(s)
    decreases |s|
  {
    if s != [] {
      assert s == [s[0]] + s[1..];
      RemoveFirstCount(s[1..], x);
    }
  }

  /** The children left after destroying every child called `x`. */
  function RemoveAll(s: seq<string>, x: string): seq<string>
    decreases |s|
  {
    if s == [] then []
    else RemoveAll(s[..|s| - 1], x) + (if s[|s| - 1] == x then [] else [s[|s| - 1]])
  }

  /** Every child called `x` is gone, and nothing else. */
  lemma {:induction false} RemoveAllCount(s: seq<string>, x: string)
    ensures multiset(RemoveAll(s, x)) == multiset(s)[x := 0]
    decreases |s|
  {
    if s != [] {
      var n := |s| - 1;
      assert s == s[..n] + [s[n]];
      RemoveAllCount(s[..n], x);
    }
  }

  /** While names are unique the two ways of clearing the name agree. */
  lemma {:induction false} RemoveFirstIsRemoveAll(s: seq<string>, x: string)
    requires Distinct(s)
    ensures RemoveFirst(s, x) == RemoveAll(s, x)
    decreases |s|
  {
    if s != [] {
      RemoveFirstIsRemoveAll(s[1..], x);
      RemoveAllFront(s, x);
      if s[0] == x {
        assert x !in s[1..];
        RemoveAllAbsent(s[1..], x);
      }
    }
  }

  lemma {:induction false} RemoveAllAbsent(s: seq<string>, x: string)
    requires x !in s
    ensures RemoveAll(s, x) == s
    decreases |s|
  {
    if s != [] {
      RemoveAllAbsent(s[..|s| - 1], x);
    }
  }

  /** `RemoveAll` seen from the front of the list. */
  lemma {:induction false} RemoveAllFront(s: seq<string>, x: string)
    requires s != []
    ensures RemoveAll(s, x) == (if s[0] == x then [] else [s[0]]) + RemoveAll(s[1..], x)
    decreases |s|
  {
    var n := |s| - 1;
    var head: seq<string> := if s[0] == x then [] else [s[0]];
    var tail: seq<string> := if s[n] == x then [] else [s[n]];
    if n > 0 {
      var middle := s[..n][1..];
      assert s[..n][0] == s[0];
      RemoveAllFront(s[..n], x);
      assert RemoveAll(s[..n], x) == head + RemoveAll(middle, x);
      assert middle == s[1..][..n - 1] && s[1..][n - 1] == s[n];
      assert RemoveAll(s[1..], x) == RemoveAll(middle, x) + tail;
      assert RemoveAll(s, x) == RemoveAll(s[..n], x) + tail;
      assert (head + RemoveAll(middle, x)) + tail == head + (RemoveAll(middle, x) + tail);
    } else {
      assert s[..n] == [] && s[1..] == [];
    }
  }

  class MaterialLibrary {
    var children: seq<string>

    constructor (children: seq<string>)
      ensures this.children == children
    {
      this.children := children;
    }

    /**
     * v1.3 `_create_material_subnet`: `node(name)` finds at most one child,
     * which is destroyed before the subnet is created under `name`.
     */
    method CreateSubnet13(name: string)
      modifies this
      ensures children == RemoveFirst(old(children), name) + [name]
    {
      children := RemoveFirst(children, name) + [name];
    }

    /**
     * v1.2 `myfunc`: every child whose name equals the new name is
     * destroyed while walking `children()`, then the subnet is created.
     */
    method CreateSubnet12(name: string)
      modifies this
      ensures children == RemoveAll(old(children), name) + [name]
    {
      var existing := children;
      var kept: seq<string> := [];
      var i := 0;
      while i < |existing|
        invariant 0 <= i <= |existing|
        invariant kept == RemoveAll(existing[..i], name)
      {
        assert existing[..i + 1][..i] == existing[..i];
        if existing[i] != name {
          kept := kept + [existing[i]];
        }
        i := i + 1;
      }
      assert existing[..|existing|] == existing;
      children := kept + [name];
    }
  }

  /** After v1.2 creates the subnet, exactly one child carries its name. */
  lemma NameOnce12(s: seq<string>, name: string)
    ensures multiset(RemoveAll(s, name) + [name])[name] == 1
  {
    RemoveAllCount(s, name);
  }

  /** v1.3 leaves exactly one child with the name only when at most one had it before. */
  lemma NameOnce13(s: seq<string>, name: string)
    ensures multiset(RemoveFirst(s, name) + [name])[name] == 1 <==> multiset(s)[name] <= 1
  {
    RemoveFirstCount(s, name);
  }
}
