/**
 * The older generation's settings state, defined identically by
 * `LoggerFoldingProjectSettings` and `LoggerFoldingSettings`: the names as
 * a list, which may hold duplicates, kept together with a hash set of the
 * same names for lookups.
 */
module LegacySettings {
  import opened CanonicalNames

  /** `LoggerFoldingProjectSettings.State` and `LoggerFoldingSettings.State` of the older generation. */
  class State {
    var canonicalNames: seq<string>
    var canonicalNamesSet: set<string>

    /** The hash set holds exactly the names of the list. */
    predicate Valid()
      reads this
    {
      canonicalNamesSet == ElementsOf(canonicalNames)
    }

    /** A fresh state holds the default names in the listed order, and their set. */
    constructor ()
      ensures Valid()
      ensures canonicalNames == DefaultCanonicalNames
    {
      canonicalNames := DefaultCanonicalNames;
      canonicalNamesSet := ElementsOf(DefaultCanonicalNames);
    }

    /** `getCanonicalNames`: the stored list. */
    method GetCanonicalNames() returns (r: seq<string>)
      ensures r == canonicalNames
    {
      r := canonicalNames;
    }

    /** `setCanonicalNames`: a copy of the list, duplicates included, and a new set of its names. */
    method SetCanonicalNames(canonicalNames: seq<string>)
      modifies this
      ensures Valid()
      ensures this.canonicalNames == canonicalNames
    {
      this.canonicalNames := canonicalNames;
      this.canonicalNamesSet := ElementsOf(this.canonicalNames);
    }

    /** `getCanonicalNamesSet`: a name is in it iff it occurs in the list. */
    method GetCanonicalNamesSet() returns (r: set<string>)
      requires Valid()
      ensures r == canonicalNamesSet
      ensures forall name :: name in r <==> name in canonicalNames
    {
      r := canonicalNamesSet;
    }

    /** `equals`: the same object, or another state with the same list: order and duplicates count. */
    predicate Equals(o: State?)
      reads this, o
      ensures Equals(o) <==> o != null && canonicalNames == o.canonicalNames
    {
      o == this || (o != null && canonicalNames == o.canonicalNames)
    }
  }

  /** Equal states also agree on their sets, so they match the same logger calls. */
  lemma EqualStatesMatchAlike(a: State, b: State)
    requires a.Valid() && b.Valid() && a.Equals(b)
    ensures a.canonicalNamesSet == b.canonicalNamesSet
  {
  }

  /** The persistent component of either settings class: it holds one state, hands it out and replaces it. */
  class PersistentSettings {
    var state: State

    constructor ()
      ensures fresh(state)
      ensures state.Valid() && state.canonicalNames == DefaultCanonicalNames
    {
      state := new State();
    }

    /** `getState`: the held state itself. */
    method GetState() returns (r: State)
      ensures r == state
    {
      r := state;
    }

    /** `loadState`: the given state becomes the held one. */
    method LoadState(state: State)
      modifies this
      ensures this.state == state
    {
      this.state := state;
    }
  }
}
