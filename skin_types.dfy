/**
 * The skin description (src/skin/types.rs): window and metadata, the
 * drawing sections of each kind of part, the closed set of part types, and
 * the errors of loading and building a skin.
 *
 * The part-type set is the one the widget factory dispatches on
 * (src/skin/builder.rs), which adds `DirectoryPicker`, `FilePicker` and
 * `Checkbox` and the fields they read. Images are abstracted to their
 * dimensions.
 */
module SkinTypes {
  import opened Prims

  /** A decoded image, reduced to its size. */
  datatype Dims = Dims(width: u32, height: u32)

  datatype SkinMeta = SkinMeta(name: string, author: string, version: string)

  datatype SkinWindow = SkinWindow(width: u32, height: u32, resizable: bool)

  /** Asset keys of a button's three states. */
  datatype PartDraw = PartDraw(normal: string, hover: string, pressed: string)

  /** Asset keys of a text input; `invalid` is optional. */
  datatype TextInputDraw = TextInputDraw(normal: string, hover: string, focused: string, invalid: Option<string>)

  /** A scroll container's scrollbar: its width and the asset keys of track and thumb. */
  datatype ScrollbarDraw = ScrollbarDraw(width: u32, track: string, thumb: string)

  datatype DirectoryPickerDraw = DirectoryPickerDraw(normal: string, hover: string, buttonNormal: string, buttonHover: string)

  datatype FilePickerDraw = FilePickerDraw(
    pickerNormal: string, pickerHover: string, pickerBtnNormal: string, pickerBtnHover: string,
    track: string, thumb: string, itemNormal: string, itemHover: string, itemSelected: string)

  datatype CheckboxDraw = CheckboxDraw(unchecked: string, checked: string)

  /** The only hit region shape. */
  datatype HitType = HitRect

  datatype PartHit = PartHit(hitType: HitType)

  datatype TextAlign = AlignLeft | AlignCenter | AlignRight

  datatype VerticalAlign = AlignTop | AlignMiddle | AlignBottom

  /** `TextAlign::default()`. */
  const DefaultTextAlign: TextAlign := AlignLeft

  /** `VerticalAlign::default()`: centred. */
  const DefaultVerticalAlign: VerticalAlign := AlignMiddle

  /** The part types; only `Image` carries data, its asset key. */
  datatype PartType =
    | Image(asset: string)
    | Button
    | TextInput
    | StaticText
    | VScrollContainer
    | DirectoryPicker
    | FilePicker
    | Checkbox

  /** Character validation of a text input; `Pattern` is a whitelist of characters. */
  datatype TextValidation = Any | Numeric | Alpha | Alphanumeric | Pattern(pattern: string)

  /** One part of a skin; a container part nests at most one child part. */
  datatype SkinPart = SkinPart(
    id: string,
    partType: PartType,
    x: int,
    y: int,
    width: u32,
    height: u32,
    z: int,
    draw: Option<PartDraw>,
    textInputDraw: Option<TextInputDraw>,
    directoryPickerDraw: Option<DirectoryPickerDraw>,
    filePickerDraw: Option<FilePickerDraw>,
    checkboxDraw: Option<CheckboxDraw>,
    scrollbar: Option<ScrollbarDraw>,
    hit: Option<PartHit>,
    action: Option<string>,
    textColor: Option<u32>,
    padding: Option<u32>,
    fontSize: Option<real>,
    maxLength: Option<u32>,
    validation: Option<TextValidation>,
    content: Option<string>,
    textAlign: Option<TextAlign>,
    verticalAlign: Option<VerticalAlign>,
    binding: Option<string>,
    contentHeight: Option<u32>,
    child: Option<SkinPart>,
    filter: Option<string>,
    onSelect: Option<string>,
    labelText: Option<string>)

  /** A parsed skin; asset paths are kept as the text the skin file gives. */
  datatype Skin = Skin(meta: SkinMeta, window: SkinWindow, assets: map<string, string>, parts: seq<SkinPart>)

  /** A skin with its images loaded, each reduced to its size. */
  datatype LoadedSkin = LoadedSkin(skin: Skin, images: map<string, Dims>) {

    /** `get_image`: the image loaded under `key`, if any. */
    function GetImage(key: string): (r: Option<Dims>)
      ensures r.Some? <==> key in images
      ensures r.Some? ==> r.value == images[key]
    {
      if key in images then Some(images[key]) else None
    }
  }

  /** Errors of loading a skin; the foreign I/O, JSON and image errors carry their message. */
  datatype SkinError =
    | Io(ioMessage: string)
    | Json(jsonMessage: string)
    | AssetNotFound(key: string)
    | MissingDrawSection(partId: string)
    | InvalidPartType(typeName: string)
    | ImageError(imageMessage: string)
  {
    /** The `Display` text. */
    function Message(): (r: string)
      ensures AssetNotFound? ==> r == "Asset not found: " + key
      ensures MissingDrawSection? ==> r == "Missing 'draw' for button: " + partId
      ensures InvalidPartType? ==> r == "Invalid part type: " + typeName
      ensures Io? ==> r == "IO error: " + ioMessage
      ensures Json? ==> r == "JSON parse error: " + jsonMessage
      ensures ImageError? ==> r == "Image error: " + imageMessage
    {
      match this
      case Io(e) => "IO error: " + e
      case Json(e) => "JSON parse error: " + e
      case AssetNotFound(k) => "Asset not found: " + k
      case MissingDrawSection(id) => "Missing 'draw' for button: " + id
      case InvalidPartType(t) => "Invalid part type: " + t
      case ImageError(e) => "Image error: " + e
    }
  }

  /** The message names the offending key, part or type at its end, after a fixed prefix per variant. */
  lemma {:induction false} MessageEndsWithSubject(e: SkinError)
    ensures e.AssetNotFound? ==> e.Message()[|e.Message()| - |e.key|..] == e.key
    ensures e.MissingDrawSection? ==> e.Message()[|e.Message()| - |e.partId|..] == e.partId
    ensures e.InvalidPartType? ==> e.Message()[|e.Message()| - |e.typeName|..] == e.typeName
  {
  }
}
