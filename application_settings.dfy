/**
 * `LoggerFoldingApplicationSettings`: the collapse-by-default flag the
 * folding builders consult.
 */
module ApplicationSettings {

  /** `LoggerFoldingApplicationSettings.State`. */
  class State {
    var collapseByDefault: bool

    /** A fresh state does not collapse by default. */
    constructor ()
      ensures !collapseByDefault
    {
      collapseByDefault := false;
    }

    method GetCollapseByDefault() returns (r: bool)
      ensures r == collapseByDefault
    {
      r := collapseByDefault;
    }

    method SetCollapseByDefault(collapseByDefault: bool)
      modifies this
      ensures this.collapseByDefault == collapseByDefault
    {
      this.collapseByDefault := collapseByDefault;
    }

    /** `equals`: the same object, or another state with the same flag. */
    predicate Equals(o: State?)
      reads this, o
      ensures Equals(o) <==> o != null && collapseByDefault == o.collapseByDefault
    {
      o == this || (o != null && collapseByDefault == o.collapseByDefault)
    }

    /** `hashCode`: `Boolean.hashCode` of the flag. */
    function HashCode(): (r: int)
      reads this
      ensures r == 1231 <==> collapseByDefault
      ensures r == 1237 <==> !collapseByDefault
    {
      if collapseByDefault then 1231 else 1237
    }
  }

  /** Two states have the same hash code exactly when they are equal. */
  lemma HashCodeMatchesEquals(a: State, b: State)
    ensures a.HashCode() == b.HashCode() <==> a.Equals(b)
  {
  }

  /** The persistent component: it holds one state, hands it out and replaces it. */
  class LoggerFoldingApplicationSettings {
    var state: State

    constructor ()
      ensures fresh(state)
      ensures !state.collapseByDefault
    {
      state := new State();
    }

    /** `getState`: the held state itself. */
    method GetState() returns (r: State)
      ensures r == state
    {
      r := state;
    }

    /** `loadState`: the given state becomes the held one. */
    method LoadState(state: State)
      modifies this
      ensures this.state == state
    {
      this.state := state;
    }
  }
}
