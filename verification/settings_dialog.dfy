/**
 * The grid settings dialog (`SettingsDialogContent.kt`): two text fields for
 * the column and row counts, each taking the typed number when the text is a
 * number and keeping the current value otherwise, and the edges toggle.
 */
module SettingsDialog {
  import opened Wrappers
  import opened KotlinText
  import opened Grid

  /** Typing `text` in the columns field. */
  function OnColumnsChange(config: GridLayoutConfig, text: string): (r: GridLayoutConfig)
    ensures r.rows == config.rows && r.showEdges == config.showEdges
    ensures ToIntOrNull(text).Some? ==> r.columns == ToIntOrNull(text).value
    ensures ToIntOrNull(text).None? ==> r.columns == config.columns
  {
    config.(columns := ToIntOrNull(text).GetOr(config.columns))
  }

  /** Typing `text` in the rows field. */
  function OnRowsChange(config: GridLayoutConfig, text: string): (r: GridLayoutConfig)
    ensures r.columns == config.columns && r.showEdges == config.showEdges
    ensures ToIntOrNull(text).Some? ==> r.rows == ToIntOrNull(text).value
    ensures ToIntOrNull(text).None? ==> r.rows == config.rows
  {
    config.(rows := ToIntOrNull(text).GetOr(config.rows))
  }

  /** Typing any `Int` as it is printed sets the grid to exactly that many columns and rows. */
  lemma TypedNumberIsTaken(config: GridLayoutConfig, n: int)
    requires IntMin <= n <= IntMax
    ensures OnColumnsChange(config, FormatD(n)).columns == n
    ensures OnRowsChange(config, FormatD(n)).rows == n
  {
    ToIntOrNullFormatD(n);
  }

  /** The fields seed their text from the settings, so leaving them as shown changes nothing. */
  lemma ShownTextKeepsConfig(config: GridLayoutConfig)
    requires IntMin <= config.columns <= IntMax && IntMin <= config.rows <= IntMax
    ensures OnColumnsChange(config, FormatD(config.columns)) == config
    ensures OnRowsChange(config, FormatD(config.rows)) == config
  {
    ToIntOrNullFormatD(config.columns);
    ToIntOrNullFormatD(config.rows);
  }

  /** There is no range check: zero and negative counts are taken, and clearing the field keeps the count. */
  lemma NoRangeCheck(config: GridLayoutConfig)
    ensures OnColumnsChange(config, "0").columns == 0
    ensures OnRowsChange(config, "-3").rows == -3
    ensures OnColumnsChange(config, "") == config
  {
    assert "-3"[1..] == "3";
    assert ParseDigits("3") == 3 by {
      assert "3"[..0] == [];
    }
  }
}
