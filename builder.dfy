/**
 * The skin builder (src/skin/builder.rs): `create_widget` turns one part
 * into a configured widget or fails with the first requirement it finds
 * unmet, and `build` assembles the whole tree: a transparent root the size
 * of the window, then every part, lowest `z` first, as a child of the root
 * with the part's rectangle as its bounds.
 *
 * Text metrics, needed for a scroll container's child height, come from a
 * `Font` parameter.
 */
module SkinBuilder {
  import opened Prims
  import opened Geometry
  import opened Nodes
  import opened TreeArena
  import opened Tree
  import opened SkinTypes
  import opened BuildRules
  import WidgetCore
  import opened SimpleWidgets
  import opened Widgets
  import TextInputWidget
  import StaticTextWidget
  import SkinVScrollWidget
  import DirectoryPickerWidget
  import FilePickerWidget
  import CheckboxWidget

  /** A text input configured from `part`: its three images, the optional invalid image when loaded, and each given setting. */
  ghost predicate TextInputBuilt(t: TextInputWidget.TextInput, part: SkinPart, d: TextInputDraw, skin: LoadedSkin)
    reads t
  {
    var imgs := Resolve(TextInputKeys(d), skin);
    && imgs.Ok?
    && t.normal == imgs.value[0] && t.hover == imgs.value[1] && t.focused == imgs.value[2]
    && t.invalid == (if d.invalid.Some? then skin.GetImage(d.invalid.value) else None)
    && t.text == "" && t.cursor == 0 && !t.dirty
    && t.onChangeAction == part.action && t.onSubmitAction == None
    && t.textColor == part.textColor.GetOr(0) && t.padding == part.padding.GetOr(4)
    && t.fontSize == part.fontSize && t.maxLength == part.maxLength
    && t.validation == part.validation.GetOr(Any) && t.binding == part.binding
  }

  /** Static text configured from `part`: its content ("" when absent) and each given setting over the defaults. */
  ghost predicate StaticTextBuilt(t: StaticTextWidget.StaticText, part: SkinPart)
    reads t
  {
    && t.content == part.content.GetOr("")
    && t.fontSize == part.fontSize.GetOr(16.0) && t.textColor == part.textColor.GetOr(0)
    && t.textAlign == part.textAlign.GetOr(AlignLeft) && t.verticalAlign == part.verticalAlign.GetOr(AlignMiddle)
    && t.padding == part.padding.GetOr(0) && t.binding == part.binding
  }

  /**
   * A scroll container configured from `part`: the part's size, the track
   * and thumb images, at the top; a child exactly when the part has one,
   * and otherwise the configured content height.
   */
  ghost predicate ScrollBuilt(s: SkinVScrollWidget.SkinVScroll<Widget>, part: SkinPart, d: ScrollbarDraw, skin: LoadedSkin)
    reads s
  {
    var imgs := Resolve(ScrollbarKeys(d), skin);
    && imgs.Ok?
    && s.width == part.width && s.height == part.height
    && s.trackImage == imgs.value[0] && s.thumbImage == imgs.value[1]
    && s.scrollY == 0.0 && s.scrollSpeed == 1.0
    && (s.child.Some? <==> part.child.Some?)
    && (part.child.None? ==> s.contentHeight == part.contentHeight.GetOr(0))
  }

  /** A directory picker configured from `part`: its four images, nothing selected, and each given setting. */
  ghost predicate DirectoryPickerBuilt(p: DirectoryPickerWidget.DirectoryPicker, part: SkinPart, d: DirectoryPickerDraw, skin: LoadedSkin)
    reads p
  {
    var imgs := Resolve(DirectoryPickerKeys(d), skin);
    && imgs.Ok?
    && p.normal == imgs.value[0] && p.hover == imgs.value[1]
    && p.buttonNormal == imgs.value[2] && p.buttonHover == imgs.value[3]
    && p.selectedPath == None && !p.dirty
    && p.textColor == part.textColor.GetOr(0) && p.padding == part.padding.GetOr(8)
    && p.fontSize == part.fontSize && p.binding == part.binding
  }

  /** A file picker configured from `part`: the part's size, its nine images, no directory, and each given setting. */
  ghost predicate FilePickerBuilt(p: FilePickerWidget.FilePicker, part: SkinPart, d: FilePickerDraw, skin: LoadedSkin)
    reads p
  {
    var imgs := Resolve(FilePickerKeys(d), skin);
    && imgs.Ok?
    && p.width == part.width && p.height == part.height
    && p.pickerNormal == imgs.value[0] && p.pickerHover == imgs.value[1]
    && p.pickerBtnNormal == imgs.value[2] && p.pickerBtnHover == imgs.value[3]
    && p.trackImage == imgs.value[4] && p.thumbImage == imgs.value[5]
    && p.itemNormal == imgs.value[6] && p.itemHover == imgs.value[7] && p.itemSelected == imgs.value[8]
    && p.selectedDir == None && p.entries == [] && p.scrollY == 0.0
    && p.filter == part.filter && p.textColor == part.textColor.GetOr(0xDDDDDD)
    && p.padding == part.padding.GetOr(8) && p.binding == part.binding && p.onSelect == part.onSelect
  }

  /** A checkbox configured from `part`: its two images, unchecked and clean, and each given setting. */
  ghost predicate CheckboxBuilt(c: CheckboxWidget.Checkbox, part: SkinPart, d: CheckboxDraw, skin: LoadedSkin)
    reads c
  {
    var imgs := Resolve(CheckboxKeys(d), skin);
    && imgs.Ok?
    && c.unchecked == imgs.value[0] && c.checked == imgs.value[1]
    && !c.isChecked && !c.dirty
    && c.labelText == part.labelText && c.textColor == part.textColor.GetOr(0xDDDDDD)
    && c.fontSize == part.fontSize && c.padding == part.padding.GetOr(8)
    && c.binding == part.binding && c.action == part.action
  }

  /** `w` is the widget `create_widget` makes from `part`: the kind the part names, configured from it. */
  ghost predicate Built(w: Widget, part: SkinPart, skin: LoadedSkin)
    reads w.Objects()
  {
    match part.partType
    case Image(asset) => asset in skin.images && w == OfImage(SkinImage(skin.images[asset]))
    case Button =>
      && part.draw.Some?
      && var imgs := Resolve(ButtonKeys(part.draw.value), skin);
         imgs.Ok? && w == OfButton(SkinButton(imgs.value[0], imgs.value[1], imgs.value[2], part.action))
    case TextInput =>
      part.textInputDraw.Some? && w.OfTextInput? && TextInputBuilt(w.textInput, part, part.textInputDraw.value, skin)
    case StaticText => w.OfStaticText? && StaticTextBuilt(w.staticText, part)
    case VScrollContainer =>
      part.scrollbar.Some? && w.OfScroll? && ScrollBuilt(w.scroll, part, part.scrollbar.value, skin)
    case DirectoryPicker =>
      part.directoryPickerDraw.Some? && w.OfDirectoryPicker? && DirectoryPickerBuilt(w.directoryPicker, part, part.directoryPickerDraw.value, skin)
    case FilePicker =>
      part.filePickerDraw.Some? && w.OfFilePicker? && FilePickerBuilt(w.filePicker, part, part.filePickerDraw.value, skin)
    case Checkbox =>
      part.checkboxDraw.Some? && w.OfCheckbox? && CheckboxBuilt(w.checkbox, part, part.checkboxDraw.value, skin)
  }

  /** The text-input arm of `create_widget`, once its images are resolved: `TextInput::new` and the `with_*` settings the part gives. */
  method NewTextInput(part: SkinPart, d: TextInputDraw, skin: LoadedSkin) returns (t: TextInputWidget.TextInput)
    requires Resolve(TextInputKeys(d), skin).Ok?
    ensures fresh(t) && t.Valid() && TextInputBuilt(t, part, d, skin)
  {
    var imgs := Resolve(TextInputKeys(d), skin).value;
    var invalid := if d.invalid.Some? then skin.GetImage(d.invalid.value) else None;
    t := new TextInputWidget.TextInput(imgs[0], imgs[1], imgs[2], invalid);
    // Each setting the part gives overrides the default, as the `with_*` calls do.
    t.onChangeAction := if part.action.Some? then part.action else t.onChangeAction;
    t.textColor := part.textColor.GetOr(t.textColor);
    t.padding := part.padding.GetOr(t.padding);
    t.fontSize := if part.fontSize.Some? then part.fontSize else t.fontSize;
    t.maxLength := if part.maxLength.Some? then part.maxLength else t.maxLength;
    t.validation := part.validation.GetOr(t.validation);
    t.binding := if part.binding.Some? then part.binding else t.binding;
  }

  /** The static-text arm: `StaticText::new` with the content ("" when absent) and the settings the part gives. */
  method NewStaticText(part: SkinPart) returns (t: StaticTextWidget.StaticText)
    ensures fresh(t) && StaticTextBuilt(t, part)
  {
    t := new StaticTextWidget.StaticText(part.content.GetOr(""));
    t.fontSize := part.fontSize.GetOr(t.fontSize);
    t.textColor := part.textColor.GetOr(t.textColor);
    t.textAlign := part.textAlign.GetOr(t.textAlign);
    t.verticalAlign := part.verticalAlign.GetOr(t.verticalAlign);
    t.padding := part.padding.GetOr(t.padding);
    t.binding := if part.binding.Some? then part.binding else t.binding;
  }

  /** The directory-picker arm, once its images are resolved. */
  method NewDirectoryPicker(part: SkinPart, d: DirectoryPickerDraw, skin: LoadedSkin) returns (p: DirectoryPickerWidget.DirectoryPicker)
    requires Resolve(DirectoryPickerKeys(d), skin).Ok?
    ensures fresh(p) && p.Valid() && DirectoryPickerBuilt(p, part, d, skin)
  {
    var imgs := Resolve(DirectoryPickerKeys(d), skin).value;
    p := new DirectoryPickerWidget.DirectoryPicker(imgs[0], imgs[1], imgs[2], imgs[3]);
    p.textColor := part.textColor.GetOr(p.textColor);
    p.padding := part.padding.GetOr(p.padding);
    p.fontSize := if part.fontSize.Some? then part.fontSize else p.fontSize;
    p.binding := if part.binding.Some? then part.binding else p.binding;
  }

  /** The file-picker arm, once its images are resolved. */
  method NewFilePicker(part: SkinPart, d: FilePickerDraw, skin: LoadedSkin) returns (p: FilePickerWidget.FilePicker)
    requires Resolve(FilePickerKeys(d), skin).Ok?
    ensures fresh(p) && p.Valid() && FilePickerBuilt(p, part, d, skin)
  {
    var imgs := Resolve(FilePickerKeys(d), skin).value;
    p := new FilePickerWidget.FilePicker(part.width, part.height, imgs[0], imgs[1], imgs[2], imgs[3],
                                         imgs[4], imgs[5], imgs[6], imgs[7], imgs[8]);
    p.filter := if part.filter.Some? then part.filter else p.filter;
    p.textColor := part.textColor.GetOr(p.textColor);
    p.padding := part.padding.GetOr(p.padding);
    p.binding := if part.binding.Some? then part.binding else p.binding;
    p.onSelect := if part.onSelect.Some? then part.onSelect else p.onSelect;
  }

  /** The checkbox arm, once its images are resolved. */
  method NewCheckbox(part: SkinPart, d: CheckboxDraw, skin: LoadedSkin) returns (c: CheckboxWidget.Checkbox)
    requires Resolve(CheckboxKeys(d), skin).Ok?
    ensures fresh(c) && c.Valid() && CheckboxBuilt(c, part, d, skin)
  {
    var imgs := Resolve(CheckboxKeys(d), skin).value;
    c := new CheckboxWidget.Checkbox(imgs[0], imgs[1]);
    c.labelText := if part.labelText.Some? then part.labelText else c.labelText;
    c.textColor := part.textColor.GetOr(c.textColor);
    c.fontSize := if part.fontSize.Some? then part.fontSize else c.fontSize;
    c.padding := part.padding.GetOr(c.padding);
    c.binding := if part.binding.Some? then part.binding else c.binding;
    c.action := if part.action.Some? then part.action else c.action;
  }

  /**
   * `create_widget`: fails exactly when a requirement of the part is unmet,
   * with that requirement's error; otherwise returns a valid widget of the
   * part's kind, configured from the part. A scroll container's child is
   * built after the container and attached to it, and the child's
   * preferred height becomes the content height.
   */
  method CreateWidget(part: SkinPart, skin: LoadedSkin, font: WidgetCore.Font) returns (r: Result<Widget, SkinError>)
    decreases part
    ensures r.Err? <==> CreateError(part, skin).Some?
    ensures r.Err? ==> r.error == CreateError(part, skin).value
    ensures r.Ok? ==> r.value.Valid() && Built(r.value, part, skin)
    ensures r.Ok? ==> fresh(r.value.Objects())
    ensures r.Ok? && r.value.OfScroll? && r.value.scroll.child.Some? ==>
              && r.value.scroll.child.value.Valid()
              && r.value.scroll.contentHeight == r.value.scroll.child.value.PreferredSize(font).1
    ensures r.Ok? && r.value.OfScroll? && part.child.Some? ==>
              r.value.scroll.child.Some? && Built(r.value.scroll.child.value, part.child.value, skin)
  {
    match part.partType
    case Image(asset) =>
      var imgs := Resolve([asset], skin);
      if imgs.Err? {
        return Err(imgs.error);
      }
      return Ok(OfImage(SkinImage(imgs.value[0])));
    case Button =>
      if part.draw.None? {
        return Err(MissingDrawSection(part.id));
      }
      var imgs := Resolve(ButtonKeys(part.draw.value), skin);
      if imgs.Err? {
        return Err(imgs.error);
      }
      return Ok(OfButton(SkinButton(imgs.value[0], imgs.value[1], imgs.value[2], part.action)));
    case TextInput =>
      if part.textInputDraw.None? {
        return Err(MissingDrawSection(part.id));
      }
      var imgs := Resolve(TextInputKeys(part.textInputDraw.value), skin);
      if imgs.Err? {
        return Err(imgs.error);
      }
      var t := NewTextInput(part, part.textInputDraw.value, skin);
      return Ok(OfTextInput(t));
    case StaticText =>
      var t := NewStaticText(part);
      return Ok(OfStaticText(t));
    case VScrollContainer =>
      r := CreateScroll(part, skin, font);
    case DirectoryPicker =>
      if part.directoryPickerDraw.None? {
        return Err(MissingDrawSection(part.id));
      }
      var imgs := Resolve(DirectoryPickerKeys(part.directoryPickerDraw.value), skin);
      if imgs.Err? {
        return Err(imgs.error);
      }
      var p := NewDirectoryPicker(part, part.directoryPickerDraw.value, skin);
      return Ok(OfDirectoryPicker(p));
    case FilePicker =>
      if part.filePickerDraw.None? {
        return Err(MissingDrawSection(part.id));
      }
      var imgs := Resolve(FilePickerKeys(part.filePickerDraw.value), skin);
      if imgs.Err? {
        return Err(imgs.error);
      }
      var p := NewFilePicker(part, part.filePickerDraw.value, skin);
      return Ok(OfFilePicker(p));
    case Checkbox =>
      if part.checkboxDraw.None? {
        return Err(MissingDrawSection(part.id));
      }
      var imgs := Resolve(CheckboxKeys(part.checkboxDraw.value), skin);
      if imgs.Err? {
        return Err(imgs.error);
      }
      var c := NewCheckbox(part, part.checkboxDraw.value, skin);
      return Ok(OfCheckbox(c));
  }

  /** The scroll-container arm before its child: `SkinVScroll::new` and the configured content height. */
  method NewScroll(part: SkinPart, d: ScrollbarDraw, skin: LoadedSkin) returns (s: SkinVScrollWidget.SkinVScroll<Widget>)
    requires Resolve(ScrollbarKeys(d), skin).Ok?
    ensures fresh(s) && s.Valid() && s.child == None
    ensures var imgs := Resolve(ScrollbarKeys(d), skin).value;
            && s.width == part.width && s.height == part.height
            && s.trackImage == imgs[0] && s.thumbImage == imgs[1]
            && s.scrollY == 0.0 && s.scrollSpeed == 1.0
            && s.contentHeight == part.contentHeight.GetOr(0)
  {
    var imgs := Resolve(ScrollbarKeys(d), skin).value;
    s := new SkinVScrollWidget.SkinVScroll<Widget>(part.width, part.height, imgs[0], imgs[1]);
    if part.contentHeight.Some? {
      s.WithContentHeight(part.contentHeight.value);
    }
  }

  /** The scroll-container arm of `create_widget`, which builds the child part recursively. */
  method CreateScroll(part: SkinPart, skin: LoadedSkin, font: WidgetCore.Font) returns (r: Result<Widget, SkinError>)
    requires part.partType.VScrollContainer?
    decreases part, 2
    ensures r.Err? <==> CreateError(part, skin).Some?
    ensures r.Err? ==> r.error == CreateError(part, skin).value
    ensures r.Ok? ==> r.value.Valid() && Built(r.value, part, skin)
    ensures r.Ok? ==> fresh(r.value.Objects())
    ensures r.Ok? && r.value.OfScroll? && r.value.scroll.child.Some? ==>
              && r.value.scroll.child.value.Valid()
              && r.value.scroll.contentHeight == r.value.scroll.child.value.PreferredSize(font).1
    ensures r.Ok? && r.value.OfScroll? && part.child.Some? ==>
              r.value.scroll.child.Some? && Built(r.value.scroll.child.value, part.child.value, skin)
  {
    if part.scrollbar.None? {
      return Err(MissingDrawSection(part.id + " (scrollbar)"));
    }
    var imgs := Resolve(ScrollbarKeys(part.scrollbar.value), skin);
    if imgs.Err? {
      return Err(imgs.error);
    }
    var s := NewScroll(part, part.scrollbar.value, skin);
    if part.child.Some? {
      var child := AdoptChild(s, part, skin, font);
      if child.Err? {
        return Err(child.error);
      }
    }
    return Ok(OfScroll(s));
  }

  /**
   * The child step of the scroll-container arm: build the child part and,
   * when that succeeds, attach it to `s` with its preferred height as the
   * content height; the container's own settings stay as they were.
   */
  method AdoptChild(s: SkinVScrollWidget.SkinVScroll<Widget>, part: SkinPart, skin: LoadedSkin, font: WidgetCore.Font)
    returns (r: Result<Widget, SkinError>)
    requires part.child.Some? && s.Valid() && s.scrollY == 0.0
    modifies s`child, s`contentHeight, s`scrollY
    decreases part, 1
    ensures r.Err? <==> CreateError(part.child.value, skin).Some?
    ensures r.Err? ==> r.error == CreateError(part.child.value, skin).value
    ensures r.Ok? ==> s.Valid() && s.scrollY == 0.0 && s.child == Some(r.value)
    ensures r.Ok? ==> r.value.Valid() && Built(r.value, part.child.value, skin) && s !in r.value.Objects()
    ensures r.Ok? ==> s.contentHeight == r.value.PreferredSize(font).1
  {
    r := CreateWidget(part.child.value, skin, font);
    if r.Ok? {
      s.WithChild(r.value, r.value.PreferredSize(font).1);
    }
  }

  /** A part's rectangle, which `build` gives its node as bounds. */
  function PartRect(part: SkinPart): (r: Rect)
    ensures r.x == part.x && r.y == part.y && r.width == part.width && r.height == part.height
  {
    Rect(part.x, part.y, part.width, part.height)
  }

  /** The ids of the first `n` nodes after the root, in order. */
  function ChildIds(n: nat): (r: seq<NodeId>)
    ensures |r| == n && forall k :: 0 <= k < n ==> r[k] == NodeId(k + 1)
  {
    seq(n, k requires 0 <= k => NodeId(k + 1))
  }

  /** The root `build` creates: a transparent container the size of the window. */
  function RootWidget(window: SkinWindow): Widget {
    OfContainer(Transparent(window.width, window.height))
  }

  /**
   * The slots after `build` has added the first `n` of `parts`: slot 0
   * holds the root, the window-sized container, with bounds (0, 0, width,
   * height) and the nodes 1..n as its children; slot k holds part k - 1,
   * a leaf under the root with the part's rectangle as bounds.
   */
  ghost predicate Assembled(nodes: Slots<Widget>, parts: seq<SkinPart>, window: SkinWindow, n: nat)
    requires n <= |parts|
  {
    && |nodes| == n + 1
    && nodes[0] == Some(Node(RootWidget(window), ChildIds(n), None, Rect(0, 0, window.width, window.height)))
    && forall k :: 1 <= k < |nodes| ==>
         && nodes[k].Some? && nodes[k].value.children == [] && nodes[k].value.parent == Some(NodeId(0))
         && nodes[k].value.bounds == PartRect(parts[k - 1])
  }

  /** The whole tree: assembled slots, none free, slot 0 the root, and no node hovered, pressed, focused or captured. */
  ghost predicate AssembledTree(t: UiTree<Widget>, parts: seq<SkinPart>, window: SkinWindow, n: nat)
    reads t
    requires n <= |parts|
  {
    && t.Valid() && t.freeList == [] && t.root == Some(NodeId(0))
    && t.hovered == None && t.pressed == None && t.focused == None && t.captured == None
    && Assembled(t.nodes, parts, window, n)
  }

  /**
   * One step of `build`'s loop: adding the next part's widget under the root
   * and setting its bounds extends the assembled slots by that part and
   * leaves the earlier slots as they were.
   */
  lemma {:induction false} AddPart(nodes: Slots<Widget>, linked: Slots<Widget>, bounded: Slots<Widget>,
                parts: seq<SkinPart>, window: SkinWindow, n: nat, w: Widget)
    requires n < |parts| && Assembled(nodes, parts, window, n)
    requires linked == Linked(Put(nodes, n + 1, Some(NewNode(w))), NodeId(n + 1), Some(NodeId(0)))
    requires |bounded| == |linked|
    requires forall k :: 0 <= k < |bounded| ==>
               bounded[k] == if k == n + 1 && linked[k].Some? then Some(linked[k].value.(bounds := PartRect(parts[n]))) else linked[k]
    ensures Assembled(bounded, parts, window, n + 1)
    ensures forall k :: 1 <= k <= n ==> bounded[k] == nodes[k]
    ensures bounded[n + 1].Some? && bounded[n + 1].value.widget == w
  {
    assert ChildIds(n) + [NodeId(n + 1)] == ChildIds(n + 1);
    assert bounded[0] == linked[0];
  }

  /** A tree is never one of a widget's objects, so changing the tree leaves every widget as it was. */
  lemma {:induction false} TreeIsNoWidget(t: UiTree<Widget>, w: Widget)
    ensures t !in w.Objects()
  {
  }

  /** Adding the root to an empty tree and setting its bounds gives the assembled slots with no part yet. */
  lemma {:induction false} RootPlaced(w: Widget, window: SkinWindow, parts: seq<SkinPart>)
    requires w == RootWidget(window)
    ensures var linked := Linked(Put([], 0, Some(NewNode(w))), NodeId(0), None);
            Assembled([Some(linked[0].value.(bounds := Rect(0, 0, window.width, window.height)))], parts, window, 0)
  {
    assert ChildIds(0) == [];
  }

  /**
   * The body of `build`'s loop once the widget exists: add it under the
   * root and give it the part's rectangle. The widgets already built are
   * not part of the tree object, so they stay as they were built.
   */
  method Attach(tree: UiTree<Widget>, w: Widget, parts: seq<SkinPart>, window: SkinWindow, n: nat,
                skin: LoadedSkin, ghost widgets: seq<Widget>)
    requires n < |parts| && |widgets| == n + 1 && widgets[n] == w && AssembledTree(tree, parts, window, n)
    requires forall k :: 1 <= k <= n ==> tree.nodes[k].Some? && tree.nodes[k].value.widget == widgets[k - 1]
    requires forall j :: 0 <= j <= n ==> Built(widgets[j], parts[j], skin)
    modifies tree
    ensures AssembledTree(tree, parts, window, n + 1)
    ensures forall k :: 1 <= k <= n + 1 ==> tree.nodes[k].Some? && tree.nodes[k].value.widget == widgets[k - 1]
    ensures forall j :: 0 <= j <= n ==> Built(widgets[j], parts[j], skin)
  {
    forall j | 0 <= j <= n {
      TreeIsNoWidget(tree, widgets[j]);
    }
    Place(tree, w, parts, window, n);
  }

  /** Adds `w` under the root with the rectangle of part `n`; the earlier slots are kept. */
  method Place(tree: UiTree<Widget>, w: Widget, parts: seq<SkinPart>, window: SkinWindow, n: nat)
    requires n < |parts| && AssembledTree(tree, parts, window, n)
    modifies tree
    ensures AssembledTree(tree, parts, window, n + 1)
    ensures forall k :: 1 <= k <= n ==> tree.nodes[k] == old(tree.nodes[k])
    ensures tree.nodes[n + 1].Some? && tree.nodes[n + 1].value.widget == w
  {
    ghost var before := tree.nodes;
    var id := tree.Add(w, Some(NodeId(0)));
    ghost var linked := tree.nodes;
    tree.SetBounds(id, PartRect(parts[n]));
    AddPart(before, linked, tree.nodes, parts, window, n, w);
  }

  /**
   * `build`'s loop: create each part's widget in turn and add it under the
   * root, stopping at the first part whose widget cannot be created.
   */
  method AddParts(tree: UiTree<Widget>, parts: seq<SkinPart>, window: SkinWindow, skin: LoadedSkin, font: WidgetCore.Font)
    returns (err: Option<SkinError>)
    requires AssembledTree(tree, parts, window, 0)
    modifies tree
    ensures err == FirstError(parts, skin)
    ensures err.None? ==> AssembledTree(tree, parts, window, |parts|)
    ensures err.None? ==> forall k :: 1 <= k < |tree.nodes| ==>
                            tree.nodes[k].Some? && Built(tree.nodes[k].value.widget, parts[k - 1], skin)
  {
    var i := 0;
    ghost var widgets: seq<Widget> := [];
    while i < |parts|
      invariant i <= |parts| && |widgets| == i
      invariant AssembledTree(tree, parts, window, i)
      invariant forall k :: 1 <= k < |tree.nodes| ==> tree.nodes[k].Some? && tree.nodes[k].value.widget == widgets[k - 1]
      invariant forall j :: 0 <= j < i ==> Built(widgets[j], parts[j], skin)
      invariant FirstError(parts[..i], skin).None?
    {
      err, widgets := AddNext(tree, parts, window, skin, font, i, widgets);
      if err.Some? {
        return;
      }
      i := i + 1;
    }
    assert parts[..i] == parts;
    return None;
  }

  /**
   * One turn of `build`'s loop: create the widget of the next part and add
   * it under the root, or report that part's error, which is then the
   * first error of all the parts.
   */
  method AddNext(tree: UiTree<Widget>, parts: seq<SkinPart>, window: SkinWindow, skin: LoadedSkin,
                 font: WidgetCore.Font, i: nat, ghost widgets: seq<Widget>)
    returns (err: Option<SkinError>, ghost added: seq<Widget>)
    requires i == |widgets| < |parts| && AssembledTree(tree, parts, window, i)
    requires forall k :: 1 <= k < |tree.nodes| ==> tree.nodes[k].Some? && tree.nodes[k].value.widget == widgets[k - 1]
    requires forall j :: 0 <= j < |widgets| ==> Built(widgets[j], parts[j], skin)
    requires FirstError(parts[..i], skin).None?
    modifies tree
    ensures err.Some? ==> err == FirstError(parts, skin)
    ensures err.None? ==> |added| == |widgets| + 1 && AssembledTree(tree, parts, window, |added|)
    ensures err.None? ==> forall k :: 1 <= k < |tree.nodes| ==> tree.nodes[k].Some? && tree.nodes[k].value.widget == added[k - 1]
    ensures err.None? ==> forall j :: 0 <= j < |added| ==> Built(added[j], parts[j], skin)
    ensures err.None? ==> FirstError(parts[..|added|], skin).None?
  {
    var w := CreateWidget(parts[i], skin, font);
    FirstErrorAt(parts, i, skin);
    if w.Err? {
      return Some(w.error), widgets;
    }
    added := widgets + [w.value];
    Attach(tree, w.value, parts, window, i, skin, added);
    err := None;
  }

  /**
   * `build`: fails with the error of the first part, in z-order, whose
   * widget cannot be created; otherwise returns the window and the tree
   * holding the root and, under it, each part's widget in z-order.
   */
  method Build(skin: LoadedSkin, font: WidgetCore.Font) returns (r: Result<(UiTree<Widget>, SkinWindow), SkinError>)
    ensures r.Err? <==> FirstError(ZOrder(skin.skin.parts), skin).Some?
    ensures r.Err? ==> r.error == FirstError(ZOrder(skin.skin.parts), skin).value
    ensures r.Ok? ==> r.value.1 == skin.skin.window
    ensures r.Ok? ==> AssembledTree(r.value.0, ZOrder(skin.skin.parts), skin.skin.window, |skin.skin.parts|)
    ensures r.Ok? ==> forall k :: 1 <= k < |r.value.0.nodes| ==>
                        r.value.0.nodes[k].Some? && Built(r.value.0.nodes[k].value.widget, ZOrder(skin.skin.parts)[k - 1], skin)
  {
    var window := skin.skin.window;
    var tree := new UiTree<Widget>();
    var rootId := tree.Add(RootWidget(window), None);
    tree.SetBounds(rootId, Rect(0, 0, window.width, window.height));
    var parts := ZOrder(skin.skin.parts);
    assert |parts| == |skin.skin.parts| by {
      assert |multiset(parts)| == |multiset(skin.skin.parts)|;
    }
    RootPlaced(RootWidget(window), window, parts);
    var err := AddParts(tree, parts, window, skin, font);
    if err.Some? {
      return Err(err.value);
    }
    return Ok((tree, window));
  }
}
