/**
 * Lists of canonical logger type names as the settings keep them: the eight
 * default names, and the insertion-ordered set (`LinkedHashSet`) the newer
 * project settings store.
 */
module CanonicalNames {

  /** The default registry, in the order the settings list it. */
  const DefaultCanonicalNames: seq<string> := [
    "java.util.logging.Logger",
    "org.slf4j.Logger",
    "org.apache.commons.logging.Log",
    "org.apache.log4j.Logger",
    "org.apache.logging.log4j.Logger",
    "android.util.Log",
    "timber.log.Timber",
    "mu.KLogger"
  ]

  predicate Distinct(s: seq<string>) {
    forall i, j :: 0 <= i < j < |s| ==> s[i] != s[j]
  }

  /** The elements of a list, as the parallel `HashSet` holds them. */
  function ElementsOf(s: seq<string>): set<string> {
    set x | x in s
  }

  /**
   * `LinkedHashSet.add` of each element of `xs` in turn, the set written as
   * its iteration order: an element already present keeps its place.
   */
  function AddAll(s: seq<string>, xs: seq<string>): (r: seq<string>)
    requires Distinct(s)
    ensures Distinct(r)
    ensures ElementsOf(r) == ElementsOf(s) + ElementsOf(xs)
    ensures |s| <= |r| && r[..|s|] == s
  {
    if xs == [] then s
    else
      var prefix := AddAll(s, xs[..|xs| - 1]);
      var x := xs[|xs| - 1];
      assert xs == xs[..|xs| - 1] + [x];
      assert ElementsOf(xs) == ElementsOf(xs[..|xs| - 1]) + {x};
      if x in prefix then prefix
      else
        assert ElementsOf(prefix + [x]) == ElementsOf(prefix) + {x};
        prefix + [x]
  }

  /** Copying a list that has no duplicates into a `LinkedHashSet` keeps it as it is. */
  lemma {:induction false} AddAllDistinct(s: seq<string>, xs: seq<string>)
    requires Distinct(s) && Distinct(s + xs)
    ensures AddAll(s, xs) == s + xs
  {
    if xs != [] {
      var init := xs[..|xs| - 1];
      var x := xs[|xs| - 1];
      assert s + xs == (s + init) + [x];
      assert Distinct(s + init) by {
        forall i, j | 0 <= i < j < |s + init| ensures (s + init)[i] != (s + init)[j] {
          assert (s + init)[i] == (s + xs)[i] && (s + init)[j] == (s + xs)[j];
        }
      }
      AddAllDistinct(s, init);
      assert x !in s + init by {
        forall k | 0 <= k < |s + init| ensures (s + init)[k] != x {
          assert (s + init)[k] == (s + xs)[k] && x == (s + xs)[|s + xs| - 1];
        }
      }
    }
  }

  /**
   * The eight defaults are distinct, so adding them one by one to an empty
   * `LinkedHashSet` keeps them all, in the listed order.
   */
  lemma DefaultCanonicalNamesAddedInOrder()
    ensures Distinct(DefaultCanonicalNames)
    ensures AddAll([], DefaultCanonicalNames) == DefaultCanonicalNames
  {
    AddAllDistinct([], DefaultCanonicalNames);
    assert [] + DefaultCanonicalNames == DefaultCanonicalNames;
  }


  /** `List.add(i, x)`: `x` lands at `i`, earlier elements stay, later ones move up by one. */
  function InsertAt(s: seq<string>, i: nat, x: string): (r: seq<string>)
    requires i <= |s|
    ensures |r| == |s| + 1 && r[i] == x
    ensures forall j :: 0 <= j < i ==> r[j] == s[j]
    ensures forall j :: i < j < |r| ==> r[j] == s[j - 1]
  {
    s[..i] + [x] + s[i..]
  }

  /** `List.remove(i)`: element `i` goes, earlier elements stay, later ones move down by one. */
  function RemoveAt(s: seq<string>, i: nat): (r: seq<string>)
    requires i < |s|
    ensures |r| == |s| - 1
    ensures forall j :: 0 <= j < i ==> r[j] == s[j]
    ensures forall j :: i <= j < |r| ==> r[j] == s[j + 1]
  {
    s[..i] + s[i + 1..]
  }

  /** Removing what was just inserted gives back the list. */
  lemma RemoveAtInsertAt(s: seq<string>, i: nat, x: string)
    requires i <= |s|
    ensures RemoveAt(InsertAt(s, i, x), i) == s
  {
    var r := RemoveAt(InsertAt(s, i, x), i);
    assert forall j :: 0 <= j < |s| ==> r[j] == s[j];
  }

  /** Removing an element from a list without duplicates removes exactly that element from its set. */
  lemma RemoveAtElements(s: seq<string>, i: nat)
    requires i < |s| && Distinct(s)
    ensures Distinct(RemoveAt(s, i))
    ensures ElementsOf(RemoveAt(s, i)) == ElementsOf(s) - {s[i]}
  {
    var r := RemoveAt(s, i);
    forall x | x in ElementsOf(s) - {s[i]} ensures x in r {
      var k :| 0 <= k < |s| && s[k] == x;
      if k < i { assert r[k] == x; } else { assert r[k - 1] == x; }
    }
  }
}
