/**
 * The widgets a skin can produce, as one tagged union in place of the
 * `Box<dyn Widget>` trait objects the tree stores (src/core/widget.rs).
 * Widgets whose fields change are objects; the others are values. A
 * skinned scroll container holds its child as a `Widget` of its own.
 */
module Widgets {
  import opened Prims
  import WidgetCore
  import SimpleWidgets
  import TextInputWidget
  import StaticTextWidget
  import SkinVScrollWidget
  import DirectoryPickerWidget
  import FilePickerWidget
  import CheckboxWidget

  datatype Widget =
    | OfImage(image: SimpleWidgets.SkinImage)
    | OfButton(button: SimpleWidgets.SkinButton)
    | OfContainer(container: SimpleWidgets.Container)
    | OfTextInput(textInput: TextInputWidget.TextInput)
    | OfStaticText(staticText: StaticTextWidget.StaticText)
    | OfScroll(scroll: SkinVScrollWidget.SkinVScroll<Widget>)
    | OfDirectoryPicker(directoryPicker: DirectoryPickerWidget.DirectoryPicker)
    | OfFilePicker(filePicker: FilePickerWidget.FilePicker)
    | OfCheckbox(checkbox: CheckboxWidget.Checkbox)
  {
    /** The object the widget is, if it is one. */
    function Objects(): set<object> {
      match this
      case OfTextInput(t) => {t}
      case OfStaticText(t) => {t}
      case OfScroll(s) => {s}
      case OfDirectoryPicker(p) => {p}
      case OfFilePicker(p) => {p}
      case OfCheckbox(c) => {c}
      case _ => {}
    }

    /** The widget's own invariant. */
    predicate Valid()
      reads Objects()
    {
      match this
      case OfTextInput(t) => t.Valid()
      case OfScroll(s) => s.Valid()
      case OfDirectoryPicker(p) => p.Valid()
      case OfFilePicker(p) => p.Valid()
      case OfCheckbox(c) => c.Valid()
      case _ => true
    }

    /** `preferred_size`, dispatched on the kind of widget. */
    function PreferredSize(font: WidgetCore.Font): (u32, u32)
      reads Objects()
      requires Valid()
    {
      match this
      case OfImage(i) => i.PreferredSize()
      case OfButton(b) => b.PreferredSize()
      case OfContainer(c) => c.PreferredSize()
      case OfTextInput(t) => t.PreferredSize()
      case OfStaticText(t) => t.PreferredSize(font)
      case OfScroll(s) => s.PreferredSize()
      case OfDirectoryPicker(p) => p.PreferredSize()
      case OfFilePicker(p) => p.PreferredSize()
      case OfCheckbox(c) => c.PreferredSize()
    }
  }
}
