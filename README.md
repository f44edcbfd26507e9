# curvy core in Dafny

A model of the core of curvy, a small Rust UI toolkit that turns a JSON
"skin" into a tree of widgets. The model covers:

- the node arena (`UiTree`): slot allocation with a free list, add,
  recursive remove, hit testing and draw order;
- the key/value `Store` and the `Action` dispatcher;
- the pixel `Canvas`;
- loading a skin description into typed parts, including hex colour
  parsing;
- building a tree from a loaded skin (z-order sort, per-part asset
  checks, the first error wins);
- the skin widgets: image, button, text input, static text, vertical
  scroll containers, directory picker, file picker and checkbox.

Widgets whose fields the Rust code mutates are Dafny classes with
field-granular `modifies` frames. Their methods are specified against pure
functions of the old state:

- `Check` for the checkbox;
- `Editing` for the text input;
- `Chain` for dispatch;
- `AfterRemove`, `Linked` and `Put` for the tree.

The properties are proved about those functions.

Rust integer semantics are written out where they matter:

- `u32` wrap-around in a release build (`Wrap32`);
- saturating subtraction;
- `i32` division that truncates toward zero (`TruncDiv`).

Scroll offsets are `real`. Images are reduced to their dimensions
(`Dims`). Everything outside the program is an explicit parameter:

- the outcome of a native dialog (`chosen`);
- a directory listing (`listing`);
- font metrics (`Font`);
- number formatting and parsing (`NumberText`).

## Model

| member | source | states |
|---|---|---|
| Geometry.FromSize | src/core/rect.rs:15-17 | the rect sits at the origin with the given width and height |
| Geometry.ContainedInsideEdges | src/core/rect.rs:20-33 | a contained point lies between the left/top edges (inclusive) and the right/bottom edges (exclusive) |
| Geometry.HalfOpen | src/core/rect.rs:20-33 | a rect contains its own origin exactly when it is non-empty, and never contains a point on its right or bottom edge |
| Geometry.EmptyContainsNothing | src/core/rect.rs:20-25 | a rect of zero width or height contains no point |
| Nodes.NewNode | src/core/node.rs:22-29 | a new node holds the widget, has default bounds, no children and no parent |
| Nodes.IdIsIndex | src/core/node.rs:4-11 | node ids are equal exactly when their indices are |
| Tree.UiTree.constructor | src/core/tree.rs:16-26 | an empty tree: no slots, empty free list, no root and no hovered, pressed, focused or captured node |
| Tree.UiTree.AllocateSlot | src/core/tree.rs:99-108 | the node goes into the slot popped from the free list, or is appended; the popped index is the one used; the tree stays well formed and the new node is the youngest |
| Tree.UiTree.Add | src/core/tree.rs:35-51 | the new node is stored and linked under a live parent (appended to its children); without a parent it becomes the root if there was none (`AddedRefs`); the other state references are unchanged; if every state reference was None or named an occupied slot before, that still holds after |
| Tree.UiTree.Remove | src/core/tree.rs:54-97 | the slots become `AfterRemove`; every freed index (subtree in post-order, then the node) is pushed on the free list; hovered/pressed/focused/captured are cleared when they point into the removed subtree |
| Tree.UiTree.RemoveChildren | src/core/tree.rs:56-64 | removing the children in order frees exactly their subtrees, in order, and clears the state references into them |
| Tree.UiTree.Detach | src/core/tree.rs:66-96 | a live node is unlinked from its parent and its slot freed; an empty in-range slot is still pushed on the free list; an out-of-range id changes nothing |
| Tree.UiTree.ClearStateRefs | src/core/tree.rs:76-90 | each of hovered, pressed, focused and captured that equals the id is cleared; the others are kept |
| Tree.UiTree.Get | src/core/tree.rs:110-112 | returns the node exactly when the id names a live slot |
| Tree.UiTree.SetBounds | src/core/tree.rs:127-131 | only the bounds of a live node change; the structure and the state references do not |
| Tree.UiTree.SetRoot | src/core/tree.rs:122-124 | the root becomes the given id |
| Tree.UiTree.SetHovered | src/core/tree.rs:139-141 | the hovered node becomes the given id |
| Tree.UiTree.SetPressed | src/core/tree.rs:147-149 | the pressed node becomes the given id |
| Tree.UiTree.SetFocused | src/core/tree.rs:155-157 | the focused node becomes the given id |
| Tree.UiTree.SetCaptured | src/core/tree.rs:163-165 | the captured node becomes the given id |
| Tree.UiTree.HitTest | src/core/tree.rs:169-171 | without a root nothing is hit; a hit is a live node containing the point, and the root contains it too |
| Tree.UiTree.Draw | src/core/tree.rs:192-196 | without a root nothing is drawn; with a live root the root is drawn first; every visit carries its node's bounds and the hovered/pressed/focused flags |
| Tree.UiTree.Size | src/core/tree.rs:228-234 | the size of the live root's bounds, else (0, 0) |
| TreeArena.Lookup | src/core/tree.rs:110-112 | a node is found exactly for a live id |
| TreeArena.Put | src/core/tree.rs:99-108 | storing in a slot, or appending one past the end, changes only that slot |
| TreeArena.FilledWf | src/core/tree.rs:99-108 | filling a vacant slot with a childless node keeps the arena well formed, and the node is the youngest |
| TreeArena.AddEffect | src/core/tree.rs:35-51 | after add, the new slot holds the node with its parent set; the only other slot changed is a live parent's, whose children gain the new id at the end |
| TreeArena.LinkedWf | src/core/tree.rs:38-45 | linking a fresh node under a parent keeps the arena well formed |
| TreeArena.RemoveClears | src/core/tree.rs:54-97 | remove frees the node's own slot; every freed slot is empty afterwards; every surviving node kept everything but its children, and no longer lists the removed id as a child |
| TreeArena.RemoveVacant | src/core/tree.rs:92-96 | removing an id whose slot is empty but in range still pushes that index on the free list |
| TreeArena.RemoveKeepsRefLive | src/core/tree.rs:76-90 | a state reference that named an occupied slot and is not cleared by `remove` still names an occupied slot afterwards |
| TreeArena.RemoveKeepsRefsLive | src/core/tree.rs:54-97 | the tree invariant is kept by `remove`: if root, hovered, pressed, focused and captured are each None or name an occupied slot, then after the removal and the clearing of the references into the removed subtree they still are |
| TreeArena.AddKeepsRefLive | src/core/tree.rs:35-51 | filling a vacant slot and linking it leaves every previously occupied slot occupied, so a reference to one stays valid |
| TreeArena.AddKeepsRefsLive | src/core/tree.rs:35-51 | the tree invariant is kept by `add_boxed`: the references stay None or name occupied slots, and a root it sets names the new node |
| TreeArena.FreedDistinct | src/core/tree.rs:54-97 | remove frees each index at most once |
| TreeArena.HitTestNode | src/core/tree.rs:173-189 | a hit means the node is live and contains the point, and so does the node returned |
| TreeArena.HitChildren | src/core/tree.rs:180-186 | a hit among children is a live node containing the point |
| TreeArena.HitInSubtree | src/core/tree.rs:173-189 | the node hit lies in the subtree searched |
| TreeArena.NoChildHit | src/core/tree.rs:180-186 | when no child scan hits, no child subtree contains a hit |
| TreeArena.LastChildWins | src/core/tree.rs:180-186 | the children are tried last to first: the hit comes from some child and no later child has a hit |
| TreeArena.HitIsDeepest | src/core/tree.rs:173-189 | no child of the node hit has a hit of its own |
| TreeArena.HitSelf | src/core/tree.rs:187-188 | a live node containing the point is itself the hit exactly when none of its children has a hit |
| TreeArena.DrawNode | src/core/tree.rs:198-217 | a live node is visited before its children, with its own hovered/pressed/focused flags and bounds |
| TreeArena.DrawChildren | src/core/tree.rs:212-216 | every child visit carries correct state flags |
| TreeArena.DrawCoversSubtree | src/core/tree.rs:198-217 | draw visits exactly the nodes of the subtree |
| TreeArena.DrawOnce | src/core/tree.rs:198-217 | each subtree node is drawn exactly once and nothing outside the subtree is drawn |
| Graphics.Rgb | src/graphics/canvas.rs:31-34 | the packed colour holds r, g and b in bytes 2, 1 and 0 |
| Graphics.Canvas.constructor | src/graphics/canvas.rs:10-12 | the canvas wraps the buffer with the given width and height |
| Graphics.Canvas.Cell | src/graphics/canvas.rs:23-28 | an in-bounds pixel maps to an index inside the pixel area |
| Graphics.Canvas.CellInjective | src/graphics/canvas.rs:23-28 | distinct in-bounds pixels map to distinct buffer cells |
| Graphics.Canvas.SetPixel | src/graphics/canvas.rs:23-28 | an in-bounds pixel is written and nothing else changes; an out-of-bounds write changes nothing |
| Graphics.Canvas.SetPixelRgb | src/graphics/canvas.rs:31-34 | as SetPixel, with the packed colour |
| Graphics.Canvas.Clear | src/graphics/canvas.rs:37-39 | every cell of the buffer holds the colour |
| Graphics.Canvas.FillRect | src/graphics/canvas.rs:42-52 | exactly the pixels inside both the rect and the canvas take the colour; every other pixel and the buffer tail keep their old values |
| Graphics.Canvas.FillSpanClipped | src/graphics/canvas.rs:42-52 | without overflow, the fill ends at the smaller of the rect's edge and the canvas edge |
| Graphics.Canvas.FillOutsideIsEmpty | src/graphics/canvas.rs:42-52 | a rect starting past the canvas fills nothing |
| StoreCore.Value.AsStr | src/core/store.rs:30-35 | a string value yields its text, any other value nothing |
| StoreCore.Value.AsNumber | src/core/store.rs:38-43 | a number yields itself, any other value nothing |
| StoreCore.Value.AsBool | src/core/store.rs:46-51 | a bool yields itself, any other value nothing |
| StoreCore.Value.ToStringValue | src/core/store.rs:59-73 | null is "", bools are "true"/"false", strings are themselves |
| StoreCore.Value.TryParseNumber | src/core/store.rs:76-82 | numbers are themselves, strings are parsed, null and bool give nothing |
| StoreCore.AccessorsRoundTrip | src/core/store.rs:30-51 | each accessor gives back exactly what its own variant was built from, and nothing for the others |
| StoreCore.Store.constructor | src/core/store.rs:130-134 | a new store is empty |
| StoreCore.Store.Get | src/core/store.rs:137-139 | returns the stored value exactly for a present key |
| StoreCore.Store.Set | src/core/store.rs:142-144 | the key now maps to the value and every other key is unchanged |
| StoreCore.Store.Remove | src/core/store.rs:147-149 | returns the previous value, the key is gone and every other key is unchanged |
| StoreCore.Store.GetStr | src/core/store.rs:157-161 | a string value's text, else "" |
| StoreCore.Store.GetString | src/core/store.rs:164-168 | a present value's text form, else "" |
| StoreCore.Store.GetNumber | src/core/store.rs:171-173 | a number, or a string parsed as one; nothing for a missing key, null or bool |
| StoreCore.Store.GetBool | src/core/store.rs:176-180 | true exactly when the key holds `Bool(true)` |
| StoreCore.Store.Keys | src/core/store.rs:183-185 | exactly the present keys |
| StoreCore.Store.Clear | src/core/store.rs:188-190 | no key is present |
| Actions.NewAction | src/core/action.rs:17-22 | the named action has an empty payload, so every lookup gives nothing |
| Actions.WithPayload | src/core/action.rs:25-30 | the action carries the name and payload given |
| Actions.Action.With | src/core/action.rs:33-36 | the key maps to the value; the other entries and the name are kept |
| Actions.Action.Get | src/core/action.rs:39-41 | the payload value exactly for a present key |
| Actions.Action.GetStr | src/core/action.rs:44-46 | a present string payload's text, else nothing |
| Actions.Action.GetNumber | src/core/action.rs:49-51 | a present number payload, else nothing |
| Actions.ActionError.Message | src/core/action.rs:64-69 | the display text of each error names the action or the message |
| Actions.Chain | src/core/action.rs:122-134 | no handlers means not handled, with the store untouched |
| Actions.ChainStopsEarly | src/core/action.rs:122-134 | once a handler handles the action or fails, later handlers are never consulted |
| Actions.ChainContinues | src/core/action.rs:122-134 | declining handlers pass the store on to the rest of the chain |
| Actions.ChainFalseMeansAllDeclined | src/core/action.rs:122-134 | an unhandled result means every handler declined |
| Actions.ChainSingle | src/core/action.rs:96-102 | a one-handler chain is that handler's answer |
| Actions.ActionDispatcher.constructor | src/core/action.rs:112-114 | a new dispatcher has no handlers |
| Actions.ActionDispatcher.AddHandler | src/core/action.rs:117-119 | the handler is appended at the end |
| Actions.ActionDispatcher.Dispatch | src/core/action.rs:122-134 | the verdict and the new store contents are those of `Chain` over the handlers in order |
| SkinTypes.LoadedSkin.GetImage | src/skin/assets.rs:38-40 | the image exactly for a loaded key |
| SkinTypes.SkinError.Message | src/skin/types.rs:197-208 | each error's display text is its fixed prefix followed by its subject |
| SkinTypes.MessageEndsWithSubject | src/skin/types.rs:197-208 | the asset key, part id or type name is the suffix of the message |
| SkinLoader.TrimStartMatches | src/skin/loader.rs:184-187 | the result is a suffix of the input that does not start with the pattern |
| SkinLoader.TrimOnce | src/skin/loader.rs:184-187 | trimming removes a leading copy of the pattern and then keeps going |
| SkinLoader.TrimNone | src/skin/loader.rs:184-187 | a string not starting with the pattern is left alone |
| SkinLoader.TrimKeeps | src/skin/loader.rs:184-187 | characters that occur nowhere in the pattern are never trimmed |
| SkinLoader.HexDigitValue | src/skin/loader.rs:184-187 | a hex digit has a value below 16 |
| SkinLoader.FromHexU32 | src/skin/loader.rs:184-187 | parses exactly the non-empty, optionally '+'-signed hex strings whose value fits in `u32` |
| SkinLoader.FromHexRejects | src/skin/loader.rs:184-187 | any character that is neither a hex digit nor a leading '+' makes the parse fail |
| SkinLoader.HexDigitChar | src/skin/loader.rs:184-187 | the digit character has the requested value |
| SkinLoader.ToHex | src/skin/loader.rs:184-187 | the rendering is non-empty and all hex digits |
| SkinLoader.HexValueOfToHex | src/skin/loader.rs:184-187 | reading a rendering back gives the number |
| SkinLoader.ToHexNoPrefix | src/skin/loader.rs:184-187 | a rendering never starts with "0x" or "0X" |
| SkinLoader.FromHexOfToHex | src/skin/loader.rs:184-187 | parsing a rendering gives the number exactly when it fits in `u32` |
| SkinLoader.ParseColorRoundTrip | src/skin/loader.rs:184-187 | "0x" followed by the rendering of a colour parses back to that colour |
| SkinLoader.ParseColorPrefixes | src/skin/loader.rs:184-187 | the bare rendering and the "0X" form parse to the same colour |
| SkinLoader.ParseColorOverflow | src/skin/loader.rs:184-187 | a value that does not fit in `u32` is rejected |
| SkinLoader.TrimKeepsIn | src/skin/loader.rs:184-187 | a character absent from the pattern is still present after trimming |
| SkinLoader.ParseColorRejectsNonHex | src/skin/loader.rs:184-187 | a colour containing a non-hex character (other than x, X or +) is rejected |
| SkinLoader.ParseValidation | src/skin/loader.rs:190-196 | the four keywords map to their modes and anything else is a pattern of exactly that text |
| SkinLoader.ParseTextAlign | src/skin/loader.rs:199-204 | "center" and "right" are recognised and everything else is left |
| SkinLoader.ParseVerticalAlign | src/skin/loader.rs:207-212 | "top" and "bottom" are recognised and everything else is centre |
| SkinLoader.ConvertType | src/skin/loader.rs:144-156 | an unknown type name is an InvalidPartType error; an image needs an asset; the loader never yields picker or checkbox parts |
| SkinLoader.ConvertPart | src/skin/loader.rs:143-245 | a part converts when its type and its child do; the first error wins; id, geometry, action, binding, padding, font size, max length, content, content height and the button, text-input and scrollbar sections are copied unchanged; colour, validation and alignments are parsed; a hit becomes a rect hit; the picker and checkbox sections, filter, on-select and label are absent |
| Prims.CollectResults | src/skin/loader.rs:135-139 | collecting mapped results keeps one value per element |
| Prims.CollectResultsOk | src/skin/loader.rs:135-139 | the parts convert exactly when every part does, and the result holds each converted part in order |
| Prims.CollectResultsFirstError | src/skin/loader.rs:135-139 | a failure is the error of the first part that fails; every part before it converted |
| SkinLoader.Load | src/skin/loader.rs:113-140 | a skin loads exactly when every part converts, keeping meta, window and assets and each converted part in order; otherwise it reports the error of the first part that fails |
| BuildRules.Resolve | src/skin/builder.rs:53-61 | all images resolve exactly when every key is loaded; the error names the first missing key |
| BuildRules.ErrorOf | src/skin/builder.rs:39-320 | the error of a resolution, if any |
| BuildRules.Unmet | src/skin/builder.rs:48-51 | a missing section gives MissingDrawSection and a missing asset gives AssetNotFound |
| BuildRules.FirstUnmet | src/skin/builder.rs:39-320 | nothing is unmet exactly when every requirement holds |
| BuildRules.FirstUnmetAppend | src/skin/builder.rs:39-320 | later requirements matter only when the earlier ones all hold |
| BuildRules.AssetsOf | src/skin/builder.rs:39-320 | one asset requirement per key, in order |
| BuildRules.ResolveIsFirstUnmet | src/skin/builder.rs:53-61 | resolving keys fails exactly with the first unmet asset requirement |
| BuildRules.SectionErrorIsFirstUnmet | src/skin/builder.rs:71-84 | a draw section is checked before its assets |
| BuildRules.CreateErrorIsFirstUnmet | src/skin/builder.rs:39-320 | creating a widget fails with the first unmet requirement of its part type, in source order |
| BuildRules.InvalidImageIsOptional | src/skin/builder.rs:85 | a text input's invalid image never causes an error |
| BuildRules.FirstError | src/skin/builder.rs:28-34 | building fails exactly when some part fails, with the error of the first such part |
| BuildRules.FirstErrorAt | src/skin/builder.rs:28-34 | scanning part by part finds that first error |
| BuildRules.ZLeIsTotalPreorder | src/skin/builder.rs:24-25 | ordering by z is a total preorder |
| BuildRules.ZOrder | src/skin/builder.rs:24-25 | the sorted parts are a permutation of the input |
| BuildRules.ZOrderSortedAndStable | src/skin/builder.rs:24-25 | the parts are in non-decreasing z; they are a permutation; parts of equal z keep their relative order |
| SkinBuilder.NewTextInput | src/skin/builder.rs:70-117 | the text input gets its three images, the optional invalid image and each optional setting of the part |
| SkinBuilder.NewStaticText | src/skin/builder.rs:118-142 | the static text gets the part's content (default empty) and each optional setting |
| SkinBuilder.NewDirectoryPicker | src/skin/builder.rs:176-216 | the picker gets its four images and each optional setting |
| SkinBuilder.NewFilePicker | src/skin/builder.rs:217-282 | the picker gets the part's size, its nine images and each optional setting |
| SkinBuilder.NewCheckbox | src/skin/builder.rs:283-318 | the checkbox gets both images and each optional setting |
| SkinBuilder.CreateWidget | src/skin/builder.rs:39-320 | fails exactly when a requirement is unmet, with the first one's error; otherwise the widget is valid, newly made and built from the part, and a scroll container's child is the widget built from the part's child |
| SkinBuilder.NewScroll | src/skin/builder.rs:143-165 | a new container with the part's size, the track and thumb images, at the top, no child, and the configured content height (0 when absent) |
| SkinBuilder.AdoptChild | src/skin/builder.rs:167-171 | fails exactly with the child part's error; otherwise the child built from the child part is attached, its preferred height becomes the content height, and the container stays valid and at the top |
| SkinBuilder.CreateScroll | src/skin/builder.rs:143-175 | as CreateWidget for a scroll container: its own section and images are checked before the child; the child is the widget built from the part's child, and its preferred height becomes the content height |
| SkinBuilder.PartRect | src/skin/builder.rs:30 | a part's bounds are its position and size |
| SkinBuilder.ChildIds | src/skin/builder.rs:28-34 | the root's children are the node ids 1 to n, in order |
| SkinBuilder.RootPlaced | src/skin/builder.rs:19-21 | the transparent root covers the window and has no children |
| SkinBuilder.AddPart | src/skin/builder.rs:28-34 | adding the next part as the root's last child, with its bounds, extends the assembled tree by one |
| SkinBuilder.Attach | src/skin/builder.rs:32-33 | the widget is added under the root with its part's bounds; earlier nodes and widgets are untouched |
| SkinBuilder.Place | src/skin/builder.rs:30-33 | the part's node joins the root's children with the part's rectangle and the widget; the earlier slots are unchanged |
| SkinBuilder.AddNext | src/skin/builder.rs:29-33 | one turn of the loop: the next part's widget is placed under the root, or that part's error is the first error of the whole list |
| SkinBuilder.AddParts | src/skin/builder.rs:28-34 | the loop stops at the first failing part with its error; otherwise every part is a child of the root, in order, holding the widget built from it |
| SkinBuilder.Build | src/skin/builder.rs:14-37 | fails exactly when a z-sorted part fails, with the first one's error; otherwise returns the window and a tree whose root covers the window and whose children are the z-sorted parts' widgets |
| SimpleWidgets.SkinImage.PreferredSize | src/skin/widgets/skin_image.rs:44-46 | the image's own size |
| SimpleWidgets.SkinButton.PreferredSize | src/skin/widgets/skin_button.rs:70-72 | the normal image's size |
| SimpleWidgets.SkinButton.Face | src/skin/widgets/skin_button.rs:58-68 | pressed beats hovered beats normal |
| SimpleWidgets.SkinButton.OnEvent | src/skin/widgets/skin_button.rs:74-82 | only a click is consumed |
| SimpleWidgets.Container.PreferredSize | src/widgets/container.rs:50-52 | the container's own size |
| SimpleWidgets.Container.WithBackground | src/widgets/container.rs:21-24 | sets the background colour and keeps the size |
| SimpleWidgets.Transparent | src/widgets/container.rs:26-32 | no background, the given size |
| Truncation.Ellipsize | src/skin/widgets/directory_picker.rs:233-237 | short text is kept; long text becomes "..." followed by its last `limit - 3` characters |
| Truncation.EllipsizeBounded | src/skin/widgets/directory_picker.rs:233-237 | the result never exceeds the limit and keeps the text's tail |
| Truncation.EllipsizeIdempotent | src/skin/widgets/directory_picker.rs:233-237 | truncating twice is truncating once |
| TextInputWidget.ValidateChar | src/skin/widgets/text_input.rs:206-223 | control characters are always rejected; each mode accepts exactly its class of character |
| TextInputWidget.AlphanumericIsAlphaOrNumeric | src/skin/widgets/text_input.rs:206-223 | alphanumeric accepts exactly what alpha or numeric accepts |
| TextInputWidget.AnyIsMostPermissive | src/skin/widgets/text_input.rs:206-223 | any mode accepts whatever another mode accepts; a pattern never admits a control character |
| TextInputWidget.InsertAt | src/skin/widgets/text_input.rs:227-245 | the character sits at the position and the text on both sides is kept |
| TextInputWidget.RemoveAt | src/skin/widgets/text_input.rs:249-270 | exactly the character at the position is gone |
| TextInputWidget.RemoveInserted | src/skin/widgets/text_input.rs:227-270 | removing an inserted character restores the text |
| TextInputWidget.TypeChar | src/skin/widgets/text_input.rs:227-245 | typing succeeds exactly below the length limit with a valid character; it inserts at the cursor, advances it and respects the limit |
| TextInputWidget.EraseBack | src/skin/widgets/text_input.rs:249-258 | succeeds exactly when the cursor is not at the start, removing the character before it |
| TextInputWidget.EraseForward | src/skin/widgets/text_input.rs:262-270 | succeeds exactly when the cursor is not at the end, removing the character after it |
| TextInputWidget.Move | src/skin/widgets/text_input.rs:273-298 | left and right move by one within the text; home and end jump to the ends; the text is kept |
| TextInputWidget.Retext | src/skin/widgets/text_input.rs:180-183 | the text is replaced and the cursor is clamped to it |
| TextInputWidget.BackspaceUndoesType | src/skin/widgets/text_input.rs:227-258 | backspace after typing restores the text and the cursor |
| TextInputWidget.DeleteUndoesTypeAfterLeft | src/skin/widgets/text_input.rs:227-278 | typing, moving left, then delete restores the text and the cursor |
| TextInputWidget.RightThenLeft | src/skin/widgets/text_input.rs:273-286 | right then left returns to the same position when not at the end |
| TextInputWidget.KeyEdit | src/skin/widgets/text_input.rs:430-463 | the text changes exactly for an effective backspace or delete; Enter changes nothing |
| TextInputWidget.TextInput.constructor | src/skin/widgets/text_input.rs:63-94 | empty text, cursor 0, the normal image's size and the documented defaults |
| TextInputWidget.TextInput.PreferredSize | src/skin/widgets/text_input.rs:415-417 | the normal image's size |
| TextInputWidget.TextInput.EffectiveFontSize | src/skin/widgets/text_input.rs:166-172 | the configured size, else 16 |
| TextInputWidget.TextInput.ClearDirty | src/skin/widgets/text_input.rs:161-163 | the dirty flag is cleared |
| TextInputWidget.TextInput.SetText | src/skin/widgets/text_input.rs:180-183 | the text is replaced and the cursor clamped, without marking dirty |
| TextInputWidget.TextInput.SetInvalid | src/skin/widgets/text_input.rs:186-188 | the invalid flag is set as given |
| TextInputWidget.TextInput.InsertChar | src/skin/widgets/text_input.rs:227-245 | reports a change exactly when `TypeChar` succeeds; it then applies it, marks dirty and shows the caret; otherwise nothing changes |
| TextInputWidget.TextInput.Backspace | src/skin/widgets/text_input.rs:249-258 | reports a change exactly when `EraseBack` succeeds, and applies it |
| TextInputWidget.TextInput.Delete | src/skin/widgets/text_input.rs:262-270 | reports a change exactly when `EraseForward` succeeds, and applies it |
| TextInputWidget.TextInput.MoveLeft | src/skin/widgets/text_input.rs:273-278 | the cursor moves left by one if it can; the caret is shown only when it moved |
| TextInputWidget.TextInput.MoveRight | src/skin/widgets/text_input.rs:281-286 | the cursor moves right by one if it can; the caret is shown only when it moved |
| TextInputWidget.TextInput.MoveHome | src/skin/widgets/text_input.rs:289-292 | the cursor goes to the start and the caret is shown |
| TextInputWidget.TextInput.MoveEnd | src/skin/widgets/text_input.rs:295-298 | the cursor goes to the end and the caret is shown |
| TextInputWidget.TextInput.OnEvent | src/skin/widgets/text_input.rs:419-484 | which events are consumed; characters type, keys edit or move, focus changes touch only the caret; the dirty flag records every text change |
| StaticTextWidget.ContentRect | src/skin/widgets/static_text.rs:102-107 | the bounds inset by the padding on every side, saturating at zero size |
| StaticTextWidget.Place | src/skin/widgets/static_text.rs:113-132 | start alignment hugs the start, end alignment hugs the end, and centring splits the slack with truncating division |
| StaticTextWidget.TextX | src/skin/widgets/static_text.rs:113-121 | left, right and centre alignment in the content rect |
| StaticTextWidget.TextY | src/skin/widgets/static_text.rs:124-132 | top, bottom and middle alignment in the content rect |
| StaticTextWidget.CenterIsBalanced | src/skin/widgets/static_text.rs:113-132 | centred text has equal margins to within one pixel, the smaller one first |
| StaticTextWidget.PlacedInside | src/skin/widgets/static_text.rs:113-132 | text that fits is placed inside the content span under every alignment |
| StaticTextWidget.StaticText.constructor | src/skin/widgets/static_text.rs:30-40 | the content and the documented defaults |
| StaticTextWidget.StaticText.SetContent | src/skin/widgets/static_text.rs:89-91 | the content is replaced |
| StaticTextWidget.StaticText.PreferredSize | src/skin/widgets/static_text.rs:146-150 | the text width and line height, each plus twice the padding |
| StaticTextWidget.StaticText.OnEvent | src/skin/widgets/static_text.rs:152-154 | nothing is consumed |
| StaticTextWidget.PreferredSizeFits | src/skin/widgets/static_text.rs:94-150 | at its preferred size the content rect is exactly the text's size and the text is drawn inside it |
| CheckboxWidget.Flip | src/skin/widgets/checkbox.rs:137-140 | toggling inverts the state and marks dirty |
| CheckboxWidget.Assign | src/skin/widgets/checkbox.rs:129-134 | the state becomes the value; dirty is set only if it changed |
| CheckboxWidget.FlipTwice | src/skin/widgets/checkbox.rs:137-140 | toggling twice restores the state |
| CheckboxWidget.AssignIdempotent | src/skin/widgets/checkbox.rs:129-134 | assigning the current state changes nothing; assigning twice equals assigning once |
| CheckboxWidget.FlipIsAssignOpposite | src/skin/widgets/checkbox.rs:129-140 | toggling is assigning the opposite |
| CheckboxWidget.Checkbox.constructor | src/skin/widgets/checkbox.rs:42-59 | unchecked, clean, and the documented defaults |
| CheckboxWidget.Checkbox.WithChecked | src/skin/widgets/checkbox.rs:92-95 | sets the state without touching dirty |
| CheckboxWidget.Checkbox.PreferredSize | src/skin/widgets/checkbox.rs:197-199 | the unchecked image's size |
| CheckboxWidget.Checkbox.ClearDirty | src/skin/widgets/checkbox.rs:119-121 | the dirty flag is cleared and the state kept |
| CheckboxWidget.Checkbox.SetChecked | src/skin/widgets/checkbox.rs:129-134 | behaves as `Assign` |
| CheckboxWidget.Checkbox.Toggle | src/skin/widgets/checkbox.rs:137-140 | behaves as `Flip` |
| CheckboxWidget.Checkbox.OnEvent | src/skin/widgets/checkbox.rs:201-207 | a click is consumed and toggles; every other event changes nothing |
| DirectoryPickerWidget.PathOf | src/skin/widgets/directory_picker.rs:140-146 | "" clears the selection and any other text selects it |
| DirectoryPickerWidget.PathText | src/skin/widgets/directory_picker.rs:132-137 | the selected path, or "" when none |
| DirectoryPickerWidget.SetPathRoundTrip | src/skin/widgets/directory_picker.rs:132-146 | reading back a set path gives it again |
| DirectoryPickerWidget.PathTextRoundTrip | src/skin/widgets/directory_picker.rs:132-146 | setting the path read from a selection restores that selection |
| DirectoryPickerWidget.Background | src/skin/widgets/directory_picker.rs:197-201 | hover image when hovered or focused, else normal |
| DirectoryPickerWidget.DirectoryPicker.constructor | src/skin/widgets/directory_picker.rs:53-82 | the four images, no path and the documented defaults |
| DirectoryPickerWidget.DirectoryPicker.SetPath | src/skin/widgets/directory_picker.rs:140-146 | the selection becomes `PathOf` the text, which reads back unchanged |
| DirectoryPickerWidget.DirectoryPicker.ClearDirty | src/skin/widgets/directory_picker.rs:154-156 | the dirty flag is cleared |
| DirectoryPickerWidget.DirectoryPicker.OpenDialog | src/skin/widgets/directory_picker.rs:159-177 | a chosen directory is selected and marks dirty; a cancelled dialog changes nothing |
| DirectoryPickerWidget.DirectoryPicker.PreferredSize | src/skin/widgets/directory_picker.rs:246-248 | the normal image's size |
| DirectoryPickerWidget.DirectoryPicker.Display | src/skin/widgets/directory_picker.rs:226-237 | the truncated path in the text colour, or the truncated placeholder in the placeholder colour; never longer than 60 |
| DirectoryPickerWidget.DirectoryPicker.OnEvent | src/skin/widgets/directory_picker.rs:250-264 | only a click is consumed, and it runs the dialog |
| FilePickerWidget.Filtered | src/skin/widgets/file_picker.rs:214-224 | drops names starting with '.', then keeps exactly the entries whose name contains the filter (case-sensitive), or all the rest without a filter; a sub-multiset of the listing |
| FilePickerWidget.EntryLeIsTotalPreorder | src/skin/widgets/file_picker.rs:231-237 | the directory-first, case-insensitive order is a total preorder |
| FilePickerWidget.Entries | src/skin/widgets/file_picker.rs:196-240 | no directory or an unreadable one gives no entries; otherwise a permutation of the filtered listing |
| FilePickerWidget.EntriesOrdered | src/skin/widgets/file_picker.rs:196-240 | the entries are exactly the kept ones, sorted with directories first, and entries that compare equal keep their listing order |
| FilePickerWidget.ItemLabel | src/skin/widgets/file_picker.rs:457-459 | directories are prefixed with "[DIR] " |
| FilePickerWidget.FilePicker.constructor | src/skin/widgets/file_picker.rs:87-133 | the size, the nine images, no directory, no entries, no selection and the documented defaults |
| FilePickerWidget.FilePicker.SelectedFile | src/skin/widgets/file_picker.rs:177-179 | the selected entry's path exactly when the selection is in range |
| FilePickerWidget.FilePicker.SetDirectory | src/skin/widgets/file_picker.rs:187-193 | selects the directory, reloads the entries and resets the scroll, selection and hover |
| FilePickerWidget.FilePicker.RefreshEntries | src/skin/widgets/file_picker.rs:196-240 | the entries become `Entries` of the current directory and listing |
| FilePickerWidget.FilePicker.OpenDialog | src/skin/widgets/file_picker.rs:243-259 | a chosen directory is set as by SetDirectory; a cancelled dialog changes nothing |
| FilePickerWidget.FilePicker.ContentHeight | src/skin/widgets/file_picker.rs:272-274 | entry count times item height when that fits in `u32` |
| FilePickerWidget.FilePicker.ListHeight | src/skin/widgets/file_picker.rs:277-279 | the height below the picker bar when it fits |
| FilePickerWidget.FilePicker.MaxScroll | src/skin/widgets/file_picker.rs:282-290 | positive exactly when the content is taller than the list, and then the overflow |
| FilePickerWidget.FilePicker.ScrollBy | src/skin/widgets/file_picker.rs:293-295 | the offset moves by 30 per wheel unit, clamped to the scroll range |
| FilePickerWidget.FilePicker.ScrollRatio | src/skin/widgets/file_picker.rs:298-305 | a ratio in [0, 1] that scales the scroll range to the offset |
| FilePickerWidget.FilePicker.ThumbY | src/skin/widgets/file_picker.rs:308-312 | the thumb stays within the list height left over by the thumb image |
| FilePickerWidget.FilePicker.PickerText | src/skin/widgets/file_picker.rs:358-369 | the truncated directory or the placeholder; never longer than 60 |
| FilePickerWidget.FilePicker.ItemBackground | src/skin/widgets/file_picker.rs:432-438 | selected beats hovered beats normal |
| FilePickerWidget.FilePicker.OnEvent | src/skin/widgets/file_picker.rs:486-509 | a click runs the dialog and is consumed: a chosen directory is selected and listed, with the offset, selection and hover reset; a cancel changes nothing; a wheel is consumed and scrolls only when the list can scroll; every other event changes nothing |
| SkinVScrollWidget.SkinVScroll.constructor | src/skin/widgets/skin_vscroll.rs:35-53 | the size, the images, a scrollbar as wide as the track, no child, no offset and speed 1 |
| SkinVScrollWidget.SkinVScroll.MaxScroll | src/skin/widgets/skin_vscroll.rs:92-98 | positive exactly when the content is taller than the viewport, and then the overflow |
| SkinVScrollWidget.SkinVScroll.SetChild | src/skin/widgets/skin_vscroll.rs:56-61 | the child and its height are stored and the offset re-clamped |
| SkinVScrollWidget.SkinVScroll.WithChild | src/skin/widgets/skin_vscroll.rs:64-67 | as SetChild |
| SkinVScrollWidget.SkinVScroll.WithContentHeight | src/skin/widgets/skin_vscroll.rs:70-73 | the content height is set, without re-clamping the offset |
| SkinVScrollWidget.SkinVScroll.WithScrollSpeed | src/skin/widgets/skin_vscroll.rs:76-79 | the speed is set |
| SkinVScrollWidget.SkinVScroll.ViewportWidth | src/skin/widgets/skin_vscroll.rs:82-84 | the width left of the scrollbar, saturating at zero |
| SkinVScrollWidget.SkinVScroll.ScrollBy | src/skin/widgets/skin_vscroll.rs:101-103 | the offset moves by delta times speed, clamped to the scroll range |
| SkinVScrollWidget.SkinVScroll.ScrollRatio | src/skin/widgets/skin_vscroll.rs:106-113 | a ratio in [0, 1] that scales the scroll range to the offset |
| SkinVScrollWidget.SkinVScroll.ThumbY | src/skin/widgets/skin_vscroll.rs:121-124 | the thumb stays within the track height left over by the thumb |
| SkinVScrollWidget.SkinVScroll.ChildBounds | src/skin/widgets/skin_vscroll.rs:191-199 | the child spans the viewport width and its content height, shifted up by at most the scroll range |
| SkinVScrollWidget.SkinVScroll.OnEvent | src/skin/widgets/skin_vscroll.rs:209-221 | a wheel is consumed, and scrolls, exactly when the content can scroll |
| VScrollContainerWidget.ThumbLength | src/widgets/vscroll_container.rs:92-99 | the thumb never exceeds the track, fills it when everything fits, and is at least the minimum length when the track allows |
| VScrollContainerWidget.VScrollContainer.constructor | src/widgets/vscroll_container.rs:30-39 | the size and scrollbar width, no child, no offset and speed 1 |
| VScrollContainerWidget.VScrollContainer.MaxScroll | src/widgets/vscroll_container.rs:68-74 | positive exactly when the content is taller than the viewport, and then the overflow |
| VScrollContainerWidget.VScrollContainer.SetChild | src/widgets/vscroll_container.rs:43-49 | the child and its height are stored and the offset re-clamped |
| VScrollContainerWidget.VScrollContainer.WithScrollSpeed | src/widgets/vscroll_container.rs:52-55 | the speed is set |
| VScrollContainerWidget.VScrollContainer.ViewportWidth | src/widgets/vscroll_container.rs:58-60 | the width left of the scrollbar, saturating at zero |
| VScrollContainerWidget.VScrollContainer.ScrollBy | src/widgets/vscroll_container.rs:77-79 | the offset moves by delta times speed, clamped to the scroll range |
| VScrollContainerWidget.VScrollContainer.ScrollRatio | src/widgets/vscroll_container.rs:82-89 | a ratio in [0, 1] that scales the scroll range to the offset |
| VScrollContainerWidget.VScrollContainer.ThumbHeight | src/widgets/vscroll_container.rs:92-99 | the thumb is no taller than the track |
| VScrollContainerWidget.VScrollContainer.ThumbY | src/widgets/vscroll_container.rs:102-105 | the whole thumb stays inside the track |
| VScrollContainerWidget.VScrollContainer.TrackRect | src/widgets/vscroll_container.rs:108-115 | the track sits right of the viewport, flush with the container's right edge |
| VScrollContainerWidget.VScrollContainer.ThumbRect | src/widgets/vscroll_container.rs:118-126 | the thumb lies inside the track |
| VScrollContainerWidget.VScrollContainer.ChildBounds | src/widgets/vscroll_container.rs:165-173 | the child spans the viewport width and its content height, shifted up by at most the scroll range |
| VScrollContainerWidget.VScrollContainer.OnEvent | src/widgets/vscroll_container.rs:186-198 | a wheel is consumed, and scrolls, exactly when the content can scroll |
| Sorting.SortBy | src/skin/builder.rs:24-25 | the result is a permutation of the input |
| Sorting.SortBySorted | src/skin/builder.rs:24-25 | under a total preorder the result is sorted |
| Sorting.SortByStable | src/skin/builder.rs:24-25 | elements that compare equal keep their relative order |
| Sorting.InsertSorted | src/skin/builder.rs:24-25 | inserting into a sorted sequence keeps it sorted |
| Sorting.InsertStable | src/skin/builder.rs:24-25 | insertion places an element after every element that compares equal to it |
| Prims.Wrap32 | src/skin/widgets/file_picker.rs:272-279 | `u32` wrap-around: exact in range, congruent modulo 2^32 otherwise |
| Prims.SaturatingSub | src/skin/widgets/skin_vscroll.rs:82-84 | the difference, or zero when it would be negative |
| Prims.TruncDiv | src/skin/widgets/static_text.rs:113-132 | `i32` division truncating toward zero |
| Prims.Clamp | src/skin/widgets/skin_vscroll.rs:101-103 | the value limited to [lo, hi] |
| Prims.Lowercase | src/skin/widgets/file_picker.rs:231-237 | ASCII lower-casing, character by character |
| Prims.ContainsStr | src/skin/widgets/file_picker.rs:214-224 | true exactly when the pattern occurs as a substring |
| Prims.LexLeTotal | src/skin/widgets/file_picker.rs:231-237 | any two names compare one way or the other |
| Prims.LexLeTrans | src/skin/widgets/file_picker.rs:231-237 | name comparison is transitive |

## Left out

- Drawing to the screen is left out: image blits, text rasterisation, `set_clip`, and the per-pixel loops of every widget's `draw`. What is modelled is the arithmetic that feeds them: content and track rects, thumb placement, text origin, truncation, the choice of image and colour, and the order in which the tree visits nodes.
- The window, the event loop, the renderer, scripting and the bundle format are not part of this model.
- Native dialogs, `read_dir` and `fs::read_to_string` are inputs, not modelled behaviour. The dialog outcome is the `chosen` parameter and the directory listing is the `listing` parameter. JSON parsing is left out: `Load` starts from the parsed document. Joining asset paths to the skin's directory is left out as well.
- Font metrics (`caret_x_sized`, `line_height_sized`) are the `Font` parameter. Formatting and parsing `f64` are the `NumberText` parameter.
- Floating point is not modelled: `f32`/`f64` values are reals, and casts to `i32`/`u32` are exact floors. The rounding of `f32` is therefore not captured. In particular `VScrollContainerWidget.VScrollContainer.ThumbHeight` never exceeds the track here, while in `f32` a height such as 33554431 rounds up to 33554432.0, so `thumb_height` can exceed `height` and the `height - thumb_height()` in `thumb_y` (src/widgets/vscroll_container.rs:98-103) can underflow.
- Rect coordinates and sizes are unbounded integers. The `i32` and `u32` limits of `Rect` are not enforced, apart from the explicit `u32` wrap-arounds noted in the contracts.
- The text input's caret blink timer (`update_blink`) and its click-to-position cursor are left out. Both depend on a clock and on font metrics.
- Tree.UiTree.Remove: its contract does not itself repeat the tree invariant that every state reference is None or names an occupied slot; it follows from the contract through `TreeArena.RemoveKeepsRefsLive`, and repeating it on the recursive method makes its proof too costly. The setters (`set_root`, `set_hovered`, ... at src/core/tree.rs:122-165) store any id unvalidated, as in the Rust code, so the invariant holds over sequences of `add` and `remove` only.
- Tree.UiTree.Add: requires that the slot it will reuse is empty. The Rust code does not demand this. The only way it can fail is after `remove` is called on an id whose slot is already empty: that pushes the index on the free list again (`TreeArena.RemoveVacant`), so the index can sit on the free list twice. A later second `add` would then overwrite a live node.
- Tree.UiTree.Add: requires that a parent id is not the slot being reused. With a stale parent id equal to the recycled index, the Rust code makes the new node its own child, which the tree's termination argument cannot admit.
- SkinVScrollWidget.SkinVScroll.WithContentHeight: the scroll offset is not re-clamped, as in the Rust code. Validity afterwards is therefore promised only when the old offset still fits.
- SkinBuilder.CreateWidget: the checkbox label, picker filter and `on_select` settings are checked as stored, but `file_picker.rs` itself defines neither `with_on_select` nor an `on_select` field (only `builder.rs` calls them). The model adds the field so that the builder's behaviour can be stated.
- The loader never produces `DirectoryPicker`, `FilePicker` or `Checkbox` parts: its type match knows only five names, and `ConvertType` proves that. The part types and draw sections are taken from `builder.rs`, which does handle them.
- Apart from the image, button and container sizes listed in the table, trivial accessors and constant getters carry no row: `binding`, `is_dirty`, `with_*` builders outside the ones listed, `FilePicker`/scroll `preferred_size` returning the stored size, `ButtonImage`, `ItemColor`, `TextOrigin` and `PathString`.
- The file picker's `list_area` and the per-item culling in `draw_list` are left out. The item background and label are modelled; mouse hover tracking is not, because the Rust code leaves `MouseMove` as a no-op.
- In the directory picker, the `u32` text-width arithmetic inside `draw` is left out.
- Strings are sequences of characters read as ASCII. `String::len`, which counts bytes, is taken as a character count. The byte-slice truncations in `directory_picker.rs:233-237` and `file_picker.rs:365-369` can panic when they cut a multi-byte character; that panic is not modelled.
- The `println!` logging of the text input's on-change and on-submit actions and of the button action is left out (`text_input.rs:419-484`, `skin_button.rs:74-82`). Action handlers are pure functions of the action and the store, so any state a Rust handler closure captures is not modelled.
