/** Small facts about sequences used as ordered key lists (Python dictionary key order). */
module Seqs {

  predicate Distinct<T(==)>(s: seq<T>) {
    forall i, j :: 0 <= i < j < |s| ==> s[i] != s[j]
  }

  /**
   * The key order after `dict.update`: keys already present keep their
   * place, new keys are appended in the order they arrive.
   */
  function AppendNew<T(==)>(acc: seq<T>, keys: seq<T>): seq<T>
    decreases |keys|
  {
    if keys == [] then acc
    else AppendNew(if keys[0] in acc then acc else acc + [keys[0]], keys[1..])
  }

  /** The updated order keeps the old order as a prefix, holds old and new keys, and repeats none. */
  lemma {:induction false} AppendNewProps<T>(acc: seq<T>, keys: seq<T>)
    requires Distinct(acc)
    ensures Distinct(AppendNew(acc, keys))
    ensures |acc| <= |AppendNew(acc, keys)| && AppendNew(acc, keys)[..|acc|] == acc
    ensures forall x :: x in AppendNew(acc, keys) <==> x in acc || x in keys
    decreases |keys|
  {
    if keys != [] {
      var next := if keys[0] in acc then acc else acc + [keys[0]];
      AppendNewProps(next, keys[1..]);
      assert AppendNew(acc, keys)[..|acc|] == AppendNew(next, keys[1..])[..|next|][..|acc|];
      assert forall x :: x in keys <==> x == keys[0] || x in keys[1..];
    }
  }
}
