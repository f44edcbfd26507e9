/**
 * What building a skin requires (src/skin/builder.rs): the asset keys and
 * drawing sections each kind of part needs, in the order `create_widget`
 * checks them, the first failure that makes it return an error, and the
 * z-order `build` sorts the parts into.
 */
module BuildRules {
  import opened Prims
  import opened SkinTypes
  import Sorting

  /** `get_image` of each key in turn: all the images, or `AssetNotFound` for the first key missing. */
  function Resolve(keys: seq<string>, skin: LoadedSkin): (r: Result<seq<Dims>, SkinError>)
    ensures r.Ok? <==> forall i :: 0 <= i < |keys| ==> keys[i] in skin.images
    ensures r.Ok? ==> |r.value| == |keys| && forall i :: 0 <= i < |keys| ==> r.value[i] == skin.images[keys[i]]
    ensures r.Err? ==> exists i :: 0 <= i < |keys| && keys[i] !in skin.images && r.error == AssetNotFound(keys[i])
                                   && forall j :: 0 <= j < i ==> keys[j] in skin.images
  {
    if keys == [] then Ok([])
    else
      match skin.GetImage(keys[0])
      case None => Err(AssetNotFound(keys[0]))
      case Some(d) =>
        var rest := Resolve(keys[1..], skin);
        if rest.Err? then
          ghost var i :| 0 <= i < |keys[1..]| && keys[1..][i] !in skin.images && rest.error == AssetNotFound(keys[1..][i])
                         && forall j :: 0 <= j < i ==> keys[1..][j] in skin.images;
          assert keys[i + 1] !in skin.images;
          Err(rest.error)
        else
          Ok([d] + rest.value)
  }

  /** The asset keys of each drawing section, in the order `create_widget` looks them up. */
  function ButtonKeys(d: PartDraw): seq<string> {
    [d.normal, d.hover, d.pressed]
  }

  function TextInputKeys(d: TextInputDraw): seq<string> {
    [d.normal, d.hover, d.focused]
  }

  function ScrollbarKeys(d: ScrollbarDraw): seq<string> {
    [d.track, d.thumb]
  }

  function DirectoryPickerKeys(d: DirectoryPickerDraw): seq<string> {
    [d.normal, d.hover, d.buttonNormal, d.buttonHover]
  }

  function FilePickerKeys(d: FilePickerDraw): seq<string> {
    [d.pickerNormal, d.pickerHover, d.pickerBtnNormal, d.pickerBtnHover,
     d.track, d.thumb, d.itemNormal, d.itemHover, d.itemSelected]
  }

  function CheckboxKeys(d: CheckboxDraw): seq<string> {
    [d.unchecked, d.checked]
  }

  /** The error of a failed lookup chain, if any. */
  function ErrorOf(r: Result<seq<Dims>, SkinError>): (e: Option<SkinError>)
    ensures e.Some? <==> r.Err?
    ensures r.Err? ==> e.value == r.error
  {
    if r.Err? then Some(r.error) else None
  }

  /** The section `name` must be present, then its keys must all be loaded. */
  function SectionError(present: bool, name: string, keys: seq<string>, skin: LoadedSkin): Option<SkinError> {
    if !present then Some(MissingDrawSection(name)) else ErrorOf(Resolve(keys, skin))
  }

  /**
   * The error `create_widget` returns for `part`, or None when it succeeds.
   * A scroll container's child is built after the container's own images,
   * and its error is the container's.
   */
  function CreateError(part: SkinPart, skin: LoadedSkin): Option<SkinError>
    decreases part
  {
    match part.partType
    case Image(asset) => ErrorOf(Resolve([asset], skin))
    case Button =>
      SectionError(part.draw.Some?, part.id, if part.draw.Some? then ButtonKeys(part.draw.value) else [], skin)
    case TextInput =>
      SectionError(part.textInputDraw.Some?, part.id, if part.textInputDraw.Some? then TextInputKeys(part.textInputDraw.value) else [], skin)
    case StaticText => None
    case VScrollContainer =>
      var own := SectionError(part.scrollbar.Some?, part.id + " (scrollbar)",
                              if part.scrollbar.Some? then ScrollbarKeys(part.scrollbar.value) else [], skin);
      if own.Some? then own
      else if part.child.Some? then CreateError(part.child.value, skin)
      else None
    case DirectoryPicker =>
      SectionError(part.directoryPickerDraw.Some?, part.id,
                   if part.directoryPickerDraw.Some? then DirectoryPickerKeys(part.directoryPickerDraw.value) else [], skin)
    case FilePicker =>
      SectionError(part.filePickerDraw.Some?, part.id, if part.filePickerDraw.Some? then FilePickerKeys(part.filePickerDraw.value) else [], skin)
    case Checkbox =>
      SectionError(part.checkboxDraw.Some?, part.id, if part.checkboxDraw.Some? then CheckboxKeys(part.checkboxDraw.value) else [], skin)
  }

  /** One check `create_widget` makes: a drawing section is present, or an asset key is loaded. */
  datatype Requirement = Section(present: bool, name: string) | Asset(key: string)

  /** The error a requirement raises when it is not met. */
  function Unmet(q: Requirement, skin: LoadedSkin): (e: Option<SkinError>)
    ensures q.Section? ==> (e.Some? <==> !q.present) && (e.Some? ==> e.value == MissingDrawSection(q.name))
    ensures q.Asset? ==> (e.Some? <==> q.key !in skin.images) && (e.Some? ==> e.value == AssetNotFound(q.key))
  {
    match q
    case Section(present, name) => if present then None else Some(MissingDrawSection(name))
    case Asset(key) => if key in skin.images then None else Some(AssetNotFound(key))
  }

  /** The error of the first unmet requirement. */
  function FirstUnmet(qs: seq<Requirement>, skin: LoadedSkin): (e: Option<SkinError>)
    ensures e.None? <==> forall i :: 0 <= i < |qs| ==> Unmet(qs[i], skin).None?
  {
    if qs == [] then None
    else if Unmet(qs[0], skin).Some? then Unmet(qs[0], skin)
    else
      var e := FirstUnmet(qs[1..], skin);
      assert forall i :: 1 <= i < |qs| ==> qs[i] == qs[1..][i - 1];
      e
  }

  /** A failure in the front part of a list of requirements hides any behind it. */
  lemma {:induction false} FirstUnmetAppend(a: seq<Requirement>, b: seq<Requirement>, skin: LoadedSkin)
    ensures FirstUnmet(a + b, skin) == if FirstUnmet(a, skin).Some? then FirstUnmet(a, skin) else FirstUnmet(b, skin)
  {
    if a != [] {
      assert (a + b)[0] == a[0];
      assert (a + b)[1..] == a[1..] + b;
      FirstUnmetAppend(a[1..], b, skin);
    } else {
      assert a + b == b;
    }
  }

  function AssetsOf(keys: seq<string>): (r: seq<Requirement>)
    ensures |r| == |keys| && forall i :: 0 <= i < |keys| ==> r[i] == Asset(keys[i])
  {
    if keys == [] then [] else [Asset(keys[0])] + AssetsOf(keys[1..])
  }

  /** Looking keys up in turn fails exactly as their asset requirements do. */
  lemma {:induction false} ResolveIsFirstUnmet(keys: seq<string>, skin: LoadedSkin)
    ensures ErrorOf(Resolve(keys, skin)) == FirstUnmet(AssetsOf(keys), skin)
  {
    if keys != [] {
      assert AssetsOf(keys)[1..] == AssetsOf(keys[1..]);
      ResolveIsFirstUnmet(keys[1..], skin);
    }
  }

  /** A section's requirement, followed (when present) by those of its keys. */
  function SectionRequirements(present: bool, name: string, keys: seq<string>): seq<Requirement> {
    [Section(present, name)] + (if present then AssetsOf(keys) else [])
  }

  lemma {:induction false} SectionErrorIsFirstUnmet(present: bool, name: string, keys: seq<string>, skin: LoadedSkin)
    ensures SectionError(present, name, keys, skin) == FirstUnmet(SectionRequirements(present, name, keys), skin)
  {
    FirstUnmetAppend([Section(present, name)], if present then AssetsOf(keys) else [], skin);
    ResolveIsFirstUnmet(keys, skin);
  }

  /**
   * Everything building `part` checks, in order: its drawing section, the
   * section's asset keys, and then, for a scroll container, its child's.
   */
  function Requirements(part: SkinPart): seq<Requirement>
    decreases part
  {
    match part.partType
    case Image(asset) => [Asset(asset)]
    case Button => SectionRequirements(part.draw.Some?, part.id, if part.draw.Some? then ButtonKeys(part.draw.value) else [])
    case TextInput =>
      SectionRequirements(part.textInputDraw.Some?, part.id, if part.textInputDraw.Some? then TextInputKeys(part.textInputDraw.value) else [])
    case StaticText => []
    case VScrollContainer =>
      SectionRequirements(part.scrollbar.Some?, part.id + " (scrollbar)", if part.scrollbar.Some? then ScrollbarKeys(part.scrollbar.value) else [])
      + (if part.scrollbar.Some? && part.child.Some? then Requirements(part.child.value) else [])
    case DirectoryPicker =>
      SectionRequirements(part.directoryPickerDraw.Some?, part.id,
                          if part.directoryPickerDraw.Some? then DirectoryPickerKeys(part.directoryPickerDraw.value) else [])
    case FilePicker =>
      SectionRequirements(part.filePickerDraw.Some?, part.id, if part.filePickerDraw.Some? then FilePickerKeys(part.filePickerDraw.value) else [])
    case Checkbox =>
      SectionRequirements(part.checkboxDraw.Some?, part.id, if part.checkboxDraw.Some? then CheckboxKeys(part.checkboxDraw.value) else [])
  }

  /**
   * `create_widget` fails with the error of the first requirement not met,
   * in the order listed: a missing section as `MissingDrawSection`, a
   * missing image as `AssetNotFound` of its key. It succeeds exactly when
   * every requirement is met; an optional asset (a text input's `invalid`
   * image) is not among them.
   */
  lemma {:induction false} CreateErrorIsFirstUnmet(part: SkinPart, skin: LoadedSkin)
    decreases part
    ensures CreateError(part, skin) == FirstUnmet(Requirements(part), skin)
  {
    match part.partType
    case Image(asset) =>
      ResolveIsFirstUnmet([asset], skin);
      assert AssetsOf([asset]) == [Asset(asset)];
    case Button =>
      SectionErrorIsFirstUnmet(part.draw.Some?, part.id, if part.draw.Some? then ButtonKeys(part.draw.value) else [], skin);
    case TextInput =>
      SectionErrorIsFirstUnmet(part.textInputDraw.Some?, part.id,
                               if part.textInputDraw.Some? then TextInputKeys(part.textInputDraw.value) else [], skin);
    case StaticText =>
    case VScrollContainer =>
      var keys := if part.scrollbar.Some? then ScrollbarKeys(part.scrollbar.value) else [];
      var own := SectionRequirements(part.scrollbar.Some?, part.id + " (scrollbar)", keys);
      var rest := if part.scrollbar.Some? && part.child.Some? then Requirements(part.child.value) else [];
      SectionErrorIsFirstUnmet(part.scrollbar.Some?, part.id + " (scrollbar)", keys, skin);
      FirstUnmetAppend(own, rest, skin);
      if part.scrollbar.Some? && part.child.Some? {
        CreateErrorIsFirstUnmet(part.child.value, skin);
      }
    case DirectoryPicker =>
      SectionErrorIsFirstUnmet(part.directoryPickerDraw.Some?, part.id,
                               if part.directoryPickerDraw.Some? then DirectoryPickerKeys(part.directoryPickerDraw.value) else [], skin);
    case FilePicker =>
      SectionErrorIsFirstUnmet(part.filePickerDraw.Some?, part.id,
                               if part.filePickerDraw.Some? then FilePickerKeys(part.filePickerDraw.value) else [], skin);
    case Checkbox =>
      SectionErrorIsFirstUnmet(part.checkboxDraw.Some?, part.id,
                               if part.checkboxDraw.Some? then CheckboxKeys(part.checkboxDraw.value) else [], skin);
  }

  /** A text input's `invalid` image is optional: whether it is loaded, or named at all, never changes the outcome. */
  lemma {:induction false} InvalidImageIsOptional(part: SkinPart, skin: LoadedSkin, invalid: Option<string>)
    requires part.partType.TextInput? && part.textInputDraw.Some?
    ensures CreateError(part.(textInputDraw := Some(part.textInputDraw.value.(invalid := invalid))), skin) == CreateError(part, skin)
  {
  }

  /** The error `build` returns: the first part, in the order given, whose widget cannot be created. */
  function FirstError(parts: seq<SkinPart>, skin: LoadedSkin): (e: Option<SkinError>)
    ensures e.None? <==> forall i :: 0 <= i < |parts| ==> CreateError(parts[i], skin).None?
    ensures e.Some? ==> exists i :: 0 <= i < |parts| && e == CreateError(parts[i], skin)
                                    && forall j :: 0 <= j < i ==> CreateError(parts[j], skin).None?
  {
    if parts == [] then None
    else if CreateError(parts[0], skin).Some? then CreateError(parts[0], skin)
    else
      var e := FirstError(parts[1..], skin);
      assert forall i :: 1 <= i < |parts| ==> parts[i] == parts[1..][i - 1];
      if e.Some? then
        ghost var i :| 0 <= i < |parts[1..]| && e == CreateError(parts[1..][i], skin)
                       && forall j :: 0 <= j < i ==> CreateError(parts[1..][j], skin).None?;
        assert e == CreateError(parts[i + 1], skin);
        e
      else e
  }

  /** Once the parts before `i` all build, the first error is that of part `i`, if it fails. */
  lemma {:induction false} FirstErrorAt(parts: seq<SkinPart>, i: nat, skin: LoadedSkin)
    requires i < |parts| && FirstError(parts[..i], skin).None?
    ensures CreateError(parts[i], skin).Some? ==> FirstError(parts, skin) == CreateError(parts[i], skin)
    ensures CreateError(parts[i], skin).None? ==> FirstError(parts[..i + 1], skin).None?
  {
    if i == 0 {
      assert parts[..1][0] == parts[0];
    } else {
      assert parts[1..][..i - 1] == parts[..i][1..];
      assert parts[..i + 1][1..] == parts[1..][..i];
      FirstErrorAt(parts[1..], i - 1, skin);
    }
  }

  /** The order `sort_by_key(|p| p.z)` uses. */
  predicate ZLe(a: SkinPart, b: SkinPart) {
    a.z <= b.z
  }

  lemma {:induction false} ZLeIsTotalPreorder()
    ensures Sorting.TotalPreorder(ZLe)
  {
  }

  /** The parts in the order `build` adds them: stably sorted by `z`. */
  function ZOrder(parts: seq<SkinPart>): (r: seq<SkinPart>)
    ensures multiset(r) == multiset(parts)
  {
    Sorting.SortBy(ZLe, parts)
  }

  /**
   * `build` adds the parts lowest `z` first, every part exactly once, and
   * parts with equal `z` in the order the skin declares them.
   */
  lemma {:induction false} ZOrderSortedAndStable(parts: seq<SkinPart>, x: SkinPart)
    ensures forall i, j :: 0 <= i < j < |ZOrder(parts)| ==> ZOrder(parts)[i].z <= ZOrder(parts)[j].z
    ensures multiset(ZOrder(parts)) == multiset(parts)
    ensures Sorting.SameAs(ZLe, ZOrder(parts), x) == Sorting.SameAs(ZLe, parts, x)
  {
    ZLeIsTotalPreorder();
    Sorting.SortBySorted(ZLe, parts);
    Sorting.SortByStable(ZLe, parts, x);
  }
}
