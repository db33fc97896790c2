/**
 * `LoggerFoldingProjectSettings` (newer generation): the registry of
 * canonical logger type names is a `LinkedHashSet`, written here as its
 * iteration order, a list without duplicates.
 */
module ProjectSettings {
  import opened CanonicalNames

  const TwoTo32: int := 0x1_0000_0000
  const TwoTo31: int := 0x8000_0000

  /**
   * `String.hashCode`: `31 * h + c` over the characters, in 32-bit
   * arithmetic; kept as its residue in `[0, 2^32)`.
   */
  function StringHash(s: string): (r: int)
    ensures 0 <= r < TwoTo32
  {
    if s == [] then 0 else (31 * StringHash(s[..|s| - 1]) + s[|s| - 1] as int) % TwoTo32
  }

  /** The sum of the element hashes, before wrapping (`AbstractSet.hashCode` adds them up). */
  function SumOfHashes(names: seq<string>): int {
    if names == [] then 0 else SumOfHashes(names[..|names| - 1]) + StringHash(names[|names| - 1])
  }

  /** A residue modulo `2^32` read as a signed 32-bit `int`. */
  function ToInt32(u: int): (r: int)
    requires 0 <= u < TwoTo32
    ensures -TwoTo31 <= r < TwoTo31
    ensures (r - u) % TwoTo32 == 0
  {
    if u < TwoTo31 then u else u - TwoTo32
  }

  /** `Objects.hash(canonicalNames)`: `31 * 1` plus the set's hash, wrapped to 32 bits. */
  function NamesHash(names: seq<string>): (r: int)
    ensures -TwoTo31 <= r < TwoTo31
  {
    ToInt32((31 + SumOfHashes(names)) % TwoTo32)
  }

  /** Taking one element out of the sum. */
  lemma {:induction false} SumOfHashesRemoveAt(names: seq<string>, k: nat)
    requires k < |names|
    ensures SumOfHashes(names) == SumOfHashes(RemoveAt(names, k)) + StringHash(names[k])
  {
    var init, last := names[..|names| - 1], names[|names| - 1];
    if k == |names| - 1 {
      assert RemoveAt(names, k) == init;
    } else {
      SumOfHashesRemoveAt(init, k);
      var rest := RemoveAt(init, k);
      assert RemoveAt(names, k) == rest + [last];
      assert (rest + [last])[..|rest|] == rest;
    }
  }

  lemma FirstIsElement(t: seq<string>)
    requires t != []
    ensures t[0] in ElementsOf(t)
  {
  }

  /** The sum of hashes depends only on the set of names, whatever their order. */
  lemma {:induction false} SumOfHashesOfSameSet(s: seq<string>, t: seq<string>)
    requires Distinct(s) && Distinct(t) && ElementsOf(s) == ElementsOf(t)
    ensures SumOfHashes(s) == SumOfHashes(t)
    decreases |s|
  {
    if s == [] {
      if t != [] {
        FirstIsElement(t);
        assert false;
      }
    } else {
      var init, x := s[..|s| - 1], s[|s| - 1];
      assert x in ElementsOf(t);
      var k :| 0 <= k < |t| && t[k] == x;
      RemoveAtElements(t, k);
      RemoveAtElements(s, |s| - 1);
      assert RemoveAt(s, |s| - 1) == init;
      SumOfHashesRemoveAt(t, k);
      SumOfHashesOfSameSet(init, RemoveAt(t, k));
    }
  }

  /** `LoggerFoldingProjectSettings.State`. */
  class State {
    var canonicalNames: seq<string>

    /** A `LinkedHashSet` holds each name once. */
    predicate Valid()
      reads this
    {
      Distinct(canonicalNames)
    }

    /** A fresh state holds the default names, added one by one in the listed order. */
    constructor ()
      ensures Valid()
      ensures canonicalNames == DefaultCanonicalNames
    {
      DefaultCanonicalNamesAddedInOrder();
      canonicalNames := AddAll([], DefaultCanonicalNames);
    }

    method GetCanonicalNames() returns (r: seq<string>)
      ensures r == canonicalNames
    {
      r := canonicalNames;
    }

    /** `setCanonicalNames`: a copy of the given set, same names, same order. */
    method SetCanonicalNames(canonicalNames: seq<string>)
      requires Distinct(canonicalNames)
      modifies this
      ensures Valid()
      ensures this.canonicalNames == canonicalNames
    {
      AddAllDistinct([], canonicalNames);
      assert [] + canonicalNames == canonicalNames;
      this.canonicalNames := AddAll([], canonicalNames);
    }

    /** `equals`: the same object, or another state with the same set of names, in any order. */
    predicate Equals(o: State?)
      reads this, o
      ensures Equals(o) <==> o != null && ElementsOf(canonicalNames) == ElementsOf(o.canonicalNames)
    {
      o == this || (o != null && ElementsOf(canonicalNames) == ElementsOf(o.canonicalNames))
    }

    /** `hashCode`: `Objects.hash` of the set of names, a signed 32-bit value. */
    function HashCode(): (r: int)
      reads this
      ensures -TwoTo31 <= r < TwoTo31
    {
      NamesHash(canonicalNames)
    }
  }

  /** Equal states have equal hash codes, as the `equals`/`hashCode` contract demands. */
  lemma HashCodeConsistentWithEquals(a: State, b: State)
    requires a.Valid() && b.Valid() && a.Equals(b)
    ensures a.HashCode() == b.HashCode()
  {
    SumOfHashesOfSameSet(a.canonicalNames, b.canonicalNames);
  }

  /** The persistent component: it holds one state, hands it out and replaces it. */
  class LoggerFoldingProjectSettings {
    var state: State

    constructor ()
      ensures fresh(state)
      ensures state.Valid() && state.canonicalNames == DefaultCanonicalNames
    {
      state := new State();
    }

    /** `getState`: the held state itself. */
    method GetState() returns (r: State)
      ensures r == state
    {
      r := state;
    }

    /** `loadState`: the given state becomes the held one. */
    method LoadState(state: State)
      modifies this
      ensures this.state == state
    {
      this.state := state;
    }
  }
}
