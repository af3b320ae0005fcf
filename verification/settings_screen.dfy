/**
 * The settings page's page list (`SettingsScreen.kt`, over `PageConfig.kt`):
 * removing a custom page, enabling or disabling a page, and adding a custom
 * page from the name dialog. Each edit copies the list, changes the copy and
 * hands it back.
 */
module SettingsScreen {
  import opened Wrappers
  import opened KotlinText

  /** A page of the app: its id, title, whether it is shown, and whether the user made it. */
  datatype PageConfig = PageConfig(id: string, title: string, isEnabled: bool, isCustom: bool)

  /** The close button of the page at `index`, which only custom pages have. */
  method RemovePage(pages: seq<PageConfig>, index: int) returns (updated: seq<PageConfig>)
    requires 0 <= index < |pages| && pages[index].isCustom
    ensures updated == pages[..index] + pages[index + 1..]
    ensures forall p :: p in pages && !p.isCustom ==> p in updated
  {
    updated := pages[..index] + pages[index + 1..];
    forall p | p in pages && !p.isCustom
      ensures p in updated
    {
      var j :| 0 <= j < |pages| && pages[j] == p;
      if j < index {
        assert updated[j] == p;
      } else {
        assert updated[j - 1] == p;
      }
    }
  }

  /** The checkbox of the page at `index`: only that page's `isEnabled` changes. */
  method SetPageEnabled(pages: seq<PageConfig>, index: int, checked: bool) returns (updated: seq<PageConfig>)
    requires 0 <= index < |pages|
    ensures |updated| == |pages| && updated[index].isEnabled == checked
    ensures updated[index].(isEnabled := pages[index].isEnabled) == pages[index]
    ensures forall i :: 0 <= i < |pages| && i != index ==> updated[i] == pages[i]
  {
    updated := pages;
    updated := updated[index := updated[index].(isEnabled := checked)];
  }

  /** The add-page dialog: the name typed so far and whether the dialog is open. */
  class AddPageDialog {
    var newPageName: string
    var showAddPageDialog: bool

    constructor()
      ensures newPageName == "" && !showAddPageDialog
    {
      newPageName, showAddPageDialog := "", false;
    }

    /** The "Custom pages" button. */
    method Open()
      modifies this
      ensures showAddPageDialog && newPageName == old(newPageName)
    {
      showAddPageDialog := true;
    }

    /** Typing in the name field. */
    method OnValueChange(text: string)
      modifies this
      ensures newPageName == text && showAddPageDialog == old(showAddPageDialog)
    {
      newPageName := text;
    }

    /**
     * Add: a blank name does nothing; any other name appends an enabled
     * custom page with that title, clears the field and closes the dialog.
     */
    method Confirm(pages: seq<PageConfig>, newId: string) returns (emitted: Option<seq<PageConfig>>)
      modifies this
      ensures IsBlank(old(newPageName)) ==>
        emitted.None? && newPageName == old(newPageName) && showAddPageDialog == old(showAddPageDialog)
      ensures !IsBlank(old(newPageName)) ==>
        emitted == Some(pages + [PageConfig(newId, old(newPageName), true, true)])
        && newPageName == "" && !showAddPageDialog
    {
      if !IsBlank(newPageName) {
        emitted := Some(pages + [PageConfig(newId, newPageName, true, true)]);
        newPageName := "";
        showAddPageDialog := false;
      } else {
        emitted := None;
      }
    }
  }

  /**
   * Every name made only of spaces, the empty one included, is refused; a
   * name with a non-whitespace character anywhere in it is not.
   */
  lemma BlankNames(spaces: string, c: char, rest: string)
    requires forall i :: 0 <= i < |spaces| ==> spaces[i] == ' '
    requires !IsWhitespace(c)
    ensures IsBlank(spaces)
    ensures !IsBlank(spaces + [c] + rest)
  {
    assert (spaces + [c] + rest)[|spaces|] == c;
  }
}
