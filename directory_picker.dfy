/**
 * The directory picker (src/skin/widgets/directory_picker.rs): a selected
 * path that the store can set and read back as text, a dirty flag set
 * only by a dialog selection, and the text and images `draw` chooses.
 *
 * The native dialog is a foreign call: its outcome (the folder chosen, or
 * none when cancelled) is a parameter. Paths are their text.
 */
module DirectoryPickerWidget {
  import opened Prims
  import WidgetCore
  import SkinTypes
  import opened Truncation

  /** `set_path`'s reading of text: the empty text means no selection. */
  function PathOf(s: string): (r: Option<string>)
    ensures r.None? <==> s == ""
    ensures r.Some? ==> r.value == s
  {
    if s == "" then None else Some(s)
  }

  /** `path_string`'s rendering of a selection: the path's text, or "" without one. */
  function PathText(p: Option<string>): (r: string)
    ensures p.Some? ==> r == p.value
    ensures p.None? ==> r == ""
  {
    if p.Some? then p.value else ""
  }

  /** Text set through `set_path` reads back unchanged through `path_string`, the empty text included. */
  lemma {:induction false} SetPathRoundTrip(s: string)
    ensures PathText(PathOf(s)) == s
  {
  }

  /** A selection reads back through `path_string` and `set_path` as itself, unless it is the empty path. */
  lemma {:induction false} PathTextRoundTrip(p: Option<string>)
    requires p != Some("")
    ensures PathOf(PathText(p)) == p
  {
  }

  /** The maximum number of characters of path or placeholder `draw` shows. */
  const DisplayLimit: nat := 40

  /** The background image: the hover image when hovered or focused, else the normal one. */
  function Background(normal: SkinTypes.Dims, hover: SkinTypes.Dims, state: WidgetCore.WidgetState): (r: SkinTypes.Dims)
    ensures state.hovered || state.focused ==> r == hover
    ensures !state.hovered && !state.focused ==> r == normal
  {
    if state.hovered || state.focused then hover else normal
  }

  /** A directory picker with a skinned background and "..." button. */
  class DirectoryPicker {
    const normal: SkinTypes.Dims
    const hover: SkinTypes.Dims
    const buttonNormal: SkinTypes.Dims
    const buttonHover: SkinTypes.Dims
    const width: u32
    const height: u32
    const buttonWidth: u32
    var selectedPath: Option<string>
    var placeholder: string
    var textColor: u32
    var placeholderColor: u32
    var padding: u32
    var fontSize: Option<real>
    var binding: Option<string>
    var dirty: bool
    var buttonHovered: bool
    var dialogTitle: string

    /** The size is the normal image's and the button width the button image's. */
    predicate Valid()
      reads this
    {
      width == normal.width && height == normal.height && buttonWidth == buttonNormal.width
    }

    /**
     * `DirectoryPicker::new`: nothing selected, placeholder
     * "Select directory..." in grey (0x888888), black path text, padding 8,
     * not dirty, dialog title "Select Directory".
     */
    constructor (normal: SkinTypes.Dims, hover: SkinTypes.Dims, buttonNormal: SkinTypes.Dims, buttonHover: SkinTypes.Dims)
      ensures Valid()
      ensures this.normal == normal && this.hover == hover
      ensures this.buttonNormal == buttonNormal && this.buttonHover == buttonHover
      ensures selectedPath == None && placeholder == "Select directory..."
      ensures textColor == 0 && placeholderColor == 0x888888 && padding == 8 && fontSize == None
      ensures binding == None && !dirty && !buttonHovered && dialogTitle == "Select Directory"
    {
      this.normal := normal;
      this.hover := hover;
      this.buttonNormal := buttonNormal;
      this.buttonHover := buttonHover;
      width := normal.width;
      height := normal.height;
      buttonWidth := buttonNormal.width;
      selectedPath := None;
      placeholder := "Select directory...";
      textColor := 0;
      placeholderColor := 0x888888;
      padding := 8;
      fontSize := None;
      binding := None;
      dirty := false;
      buttonHovered := false;
      dialogTitle := "Select Directory";
    }

    /** `path_string`. */
    function PathString(): string
      reads this
    {
      PathText(selectedPath)
    }

    /** `set_path`: selects `s`, or clears the selection for ""; the dirty flag is untouched. */
    method SetPath(s: string)
      modifies this`selectedPath
      ensures selectedPath == PathOf(s)
      ensures PathString() == s
    {
      if s == "" {
        selectedPath := None;
      } else {
        selectedPath := Some(s);
      }
    }

    /** `clear_dirty`. */
    method ClearDirty()
      modifies this`dirty
      ensures !dirty
    {
      dirty := false;
    }

    /** `open_dialog`, given the dialog's outcome: a chosen folder is selected and marks the picker dirty; a cancel changes nothing. */
    method OpenDialog(chosen: Option<string>)
      modifies this`selectedPath, this`dirty
      ensures chosen.Some? ==> selectedPath == chosen && dirty
      ensures chosen.None? ==> selectedPath == old(selectedPath) && dirty == old(dirty)
    {
      if chosen.Some? {
        selectedPath := chosen;
        dirty := true;
      }
    }

    /** `preferred_size`: the normal image's size. */
    function PreferredSize(): (r: (u32, u32))
      reads this
      requires Valid()
      ensures r == (normal.width, normal.height)
    {
      (width, height)
    }

    /**
     * The text and colour `draw` shows: the selected path in the text colour,
     * or the placeholder in the placeholder colour, truncated to 40 characters.
     */
    function Display(): (r: (string, u32))
      reads this
      ensures selectedPath.Some? ==> r == (Ellipsize(selectedPath.value, DisplayLimit), textColor)
      ensures selectedPath.None? ==> r == (Ellipsize(placeholder, DisplayLimit), placeholderColor)
      ensures |r.0| <= DisplayLimit
    {
      EllipsizeBounded(PathString(), DisplayLimit);
      EllipsizeBounded(placeholder, DisplayLimit);
      match selectedPath
      case Some(p) => (Ellipsize(p, DisplayLimit), textColor)
      case None => (Ellipsize(placeholder, DisplayLimit), placeholderColor)
    }

    /** The button image `draw` uses. */
    function ButtonImage(): SkinTypes.Dims
      reads this
    {
      if buttonHovered then buttonHover else buttonNormal
    }

    /**
     * `on_event`: a click opens the dialog (whose outcome is `chosen`) and is
     * consumed; every other event, mouse moves included, is ignored.
     */
    method OnEvent(ev: WidgetCore.Event, chosen: Option<string>) returns (consumed: bool)
      modifies this`selectedPath, this`dirty
      ensures consumed <==> ev.Click?
      ensures ev.Click? && chosen.Some? ==> selectedPath == chosen && dirty
      ensures !(ev.Click? && chosen.Some?) ==> selectedPath == old(selectedPath) && dirty == old(dirty)
    {
      if ev.Click? {
        OpenDialog(chosen);
        return true;
      }
      return false;
    }
  }
}
