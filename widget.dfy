/**
 * The widget interface's data (src/core/widget.rs) and the input events
 * the widgets react to. The event set is the one the widgets match on
 * (src/skin/widgets/text_input.rs, file_picker.rs, skin_vscroll.rs).
 */
module WidgetCore {
  import opened Prims

  /** Interaction flags handed to a widget when it is drawn. */
  datatype WidgetState = WidgetState(hovered: bool, pressed: bool, focused: bool)

  const DefaultState: WidgetState := WidgetState(false, false, false)

  datatype KeyCode = Backspace | Delete | Left | Right | Home | End | Enter

  datatype Event =
    | MouseDown(x: int, y: int)
    | MouseUp(x: int, y: int)
    | MouseMove(x: int, y: int)
    | Click
    | MouseWheel(deltaY: real)
    | CharInput(c: char)
    | KeyDown(key: KeyCode)
    | FocusGained
    | FocusLost

  /** The preferred size a widget reports when it does not override `preferred_size`. */
  const DefaultPreferredSize: (nat, nat) := (0, 0)

  /** Text metrics the widgets consult (`caret_x_sized` and `line_height_sized` of the font module). */
  datatype Font = Font(caretX: (string, nat, real) -> u32, lineHeight: real -> u32)
}
