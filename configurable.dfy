/**
 * `LoggerFoldingConfigurable`: the settings page's editable table of
 * canonical names, the row selection its add and remove buttons move, and
 * the change detection against the stored project settings.
 */
module Configurable {
  import opened Wrappers
  import opened CanonicalNames
  import LegacySettings

  /** `CanonicalNamesTableModel`: one editable row per name. */
  class CanonicalNamesTableModel {
    var canonicalNames: seq<string>

    /** Built from a list, or empty when there is none. */
    constructor (canonicalNames: Option<seq<string>>)
      ensures this.canonicalNames == if canonicalNames.Some? then canonicalNames.value else []
    {
      this.canonicalNames := if canonicalNames.Some? then canonicalNames.value else [];
    }

    /** `setCanonicalNames`: a copy of the list, or an empty list for `null`. */
    method SetCanonicalNames(canonicalNames: Option<seq<string>>)
      modifies this
      ensures this.canonicalNames == if canonicalNames.Some? then canonicalNames.value else []
    {
      this.canonicalNames := if canonicalNames.Some? then canonicalNames.value else [];
    }

    method GetRowCount() returns (r: int)
      ensures r == |canonicalNames|
    {
      r := |canonicalNames|;
    }

    /** `getValueAt`: the name in the row; the table has a single column. */
    method GetValueAt(rowIndex: int, columnIndex: int) returns (r: string)
      requires 0 <= rowIndex < |canonicalNames|
      ensures r == canonicalNames[rowIndex]
    {
      r := canonicalNames[rowIndex];
    }

    /** `setValueAt`: only the row changes. */
    method SetValueAt(aValue: string, rowIndex: int, columnIndex: int)
      requires 0 <= rowIndex < |canonicalNames|
      modifies this
      ensures canonicalNames == old(canonicalNames)[rowIndex := aValue]
    {
      canonicalNames := canonicalNames[rowIndex := aValue];
    }

    /** `addEmptyRow(index)`: an empty name at `index`, the later rows one further down. */
    method AddEmptyRow(index: int)
      requires 0 <= index <= |canonicalNames|
      modifies this
      ensures canonicalNames == InsertAt(old(canonicalNames), index, "")
    {
      canonicalNames := InsertAt(canonicalNames, index, "");
    }

    /** `remove(index)`: the row goes, the others keep their order. */
    method Remove(index: int)
      requires 0 <= index < |canonicalNames|
      modifies this
      ensures canonicalNames == RemoveAt(old(canonicalNames), index)
    {
      canonicalNames := RemoveAt(canonicalNames, index);
    }

    /** `getCanonicalNames`: a copy of the rows. */
    method GetCanonicalNames() returns (r: seq<string>)
      ensures r == canonicalNames
    {
      r := canonicalNames;
    }
  }

  /**
   * The configurable with its table: `selectedRow` is the table's selected
   * row, `-1` when none; `settings` is the project's settings component.
   */
  class LoggerFoldingConfigurable {
    const settings: LegacySettings.PersistentSettings
    const canonicalNamesTableModel: CanonicalNamesTableModel
    var selectedRow: int

    predicate Valid()
      reads this, settings, settings.state, canonicalNamesTableModel
    {
      settings.state.Valid() && -1 <= selectedRow < |canonicalNamesTableModel.canonicalNames|
    }

    /** The table differs from the stored list: order and duplicates count, as the older state's `equals` says. */
    predicate Modified()
      reads this, settings, settings.state, canonicalNamesTableModel
    {
      canonicalNamesTableModel.canonicalNames != settings.state.canonicalNames
    }

    /** `createComponent`, without the widgets: an empty table with nothing selected. */
    constructor (settings: LegacySettings.PersistentSettings)
      requires settings.state.Valid()
      ensures Valid()
      ensures this.settings == settings
      ensures canonicalNamesTableModel.canonicalNames == [] && selectedRow == -1
      ensures fresh(canonicalNamesTableModel)
    {
      this.settings := settings;
      canonicalNamesTableModel := new CanonicalNamesTableModel(Some([]));
      selectedRow := -1;
    }

    /**
     * The add button: an empty row just below the selection (row 0 with no
     * selection), which becomes the selection.
     */
    method AddAction()
      requires Valid()
      modifies this, canonicalNamesTableModel
      ensures Valid()
      ensures canonicalNamesTableModel.canonicalNames == InsertAt(old(canonicalNamesTableModel.canonicalNames), old(selectedRow) + 1, "")
      ensures selectedRow == old(selectedRow) + 1
    {
      var rowIndex := selectedRow + 1;
      if rowIndex < 0 {
        // The source falls back to the row count here; a selection is never below -1, so this cannot happen.
        assert false;
      }
      canonicalNamesTableModel.AddEmptyRow(rowIndex);
      selectedRow := rowIndex;
    }

    /**
     * The remove button: nothing without a selection; otherwise the selected
     * row goes and the selection stays at its index, moves up one when the
     * last row went, and is cleared when the table is now empty.
     */
    method RemoveAction()
      requires Valid()
      modifies this, canonicalNamesTableModel
      ensures Valid()
      ensures old(selectedRow) < 0 ==>
        canonicalNamesTableModel.canonicalNames == old(canonicalNamesTableModel.canonicalNames) && selectedRow == old(selectedRow)
      ensures old(selectedRow) >= 0 ==>
        canonicalNamesTableModel.canonicalNames == RemoveAt(old(canonicalNamesTableModel.canonicalNames), old(selectedRow)) &&
        selectedRow == (if old(selectedRow) < |canonicalNamesTableModel.canonicalNames| then old(selectedRow) else old(selectedRow) - 1)
    {
      var rowIndex := selectedRow;
      if rowIndex < 0 {
        return;
      }
      canonicalNamesTableModel.Remove(rowIndex);
      var rowCount := canonicalNamesTableModel.GetRowCount();
      if rowIndex >= rowCount {
        rowIndex := rowIndex - 1;
      }
      if rowIndex >= 0 {
        selectedRow := rowIndex;
      } else {
        selectedRow := -1;
      }
    }

    /** `isModified`: a state built from the rows is not equal to the stored one. */
    method IsModified() returns (r: bool)
      requires Valid()
      ensures r <==> Modified()
    {
      var state := new LegacySettings.State();
      var canonicalNames := canonicalNamesTableModel.GetCanonicalNames();
      state.SetCanonicalNames(canonicalNames);
      r := !state.Equals(settings.state);
    }

    /** `apply`: the rows become the stored list, so nothing is modified any more. */
    method Apply()
      requires Valid()
      modifies settings.state
      ensures Valid()
      ensures settings.state.canonicalNames == canonicalNamesTableModel.canonicalNames
      ensures !Modified()
    {
      var canonicalNames := canonicalNamesTableModel.GetCanonicalNames();
      settings.state.SetCanonicalNames(canonicalNames);
    }

    /** `reset`: the rows become the stored list again, and the table's selection is cleared. */
    method Reset()
      requires Valid()
      modifies this, canonicalNamesTableModel
      ensures Valid()
      ensures canonicalNamesTableModel.canonicalNames == settings.state.canonicalNames
      ensures selectedRow == -1
      ensures !Modified()
    {
      var canonicalNames := settings.state.GetCanonicalNames();
      canonicalNamesTableModel.SetCanonicalNames(Some(canonicalNames));
      selectedRow := -1;
    }
  }

  /** Adding a row and removing it again leaves the table as it was. */
  lemma AddThenRemoveRestoresRows(rows: seq<string>, selectedRow: int)
    requires -1 <= selectedRow < |rows|
    ensures RemoveAt(InsertAt(rows, selectedRow + 1, ""), selectedRow + 1) == rows
  {
    RemoveAtInsertAt(rows, selectedRow + 1, "");
  }
}
