/**
 * The file picker (src/skin/widgets/file_picker.rs): a chosen directory,
 * its filtered and ordered entries, a selection, and a clamped scroll
 * offset over the list.
 *
 * The directory listing (`fs::read_dir`) and the native dialog are foreign
 * calls: their outcomes are parameters. A listing is `None` when the
 * directory cannot be read. Paths are their text; names are ASCII.
 */
module FilePickerWidget {
  import opened Prims
  import WidgetCore
  import SkinTypes
  import opened Truncation
  import Sorting

  /** One listed item: its name, its full path, and whether it is a directory. */
  datatype FileEntry = FileEntry(name: string, path: string, isDir: bool)

  /** A listed name is kept unless hidden (a leading '.'); with a filter it must also contain the filter text. */
  predicate Keep(name: string, filter: Option<string>) {
    !(|name| > 0 && name[0] == '.') && (filter.None? || ContainsStr(name, filter.value))
  }

  /** The listing without the entries `Keep` drops, in listing order. */
  function Filtered(listing: seq<FileEntry>, filter: Option<string>): (r: seq<FileEntry>)
    ensures |r| <= |listing|
    ensures forall e :: e in r <==> e in listing && Keep(e.name, filter)
    ensures multiset(r) <= multiset(listing)
  {
    if listing == [] then []
    else
      assert listing == [listing[0]] + listing[1..];
      (if Keep(listing[0].name, filter) then [listing[0]] else []) + Filtered(listing[1..], filter)
  }

  /** The comparator of `refresh_entries` as "not after": directories first, then by lowercase name. */
  predicate EntryLe(a: FileEntry, b: FileEntry) {
    (a.isDir && !b.isDir) || (a.isDir == b.isDir && LexLe(Lowercase(a.name), Lowercase(b.name)))
  }

  /** The comparator is a total preorder, as a stable sort needs. */
  lemma {:induction false} EntryLeIsTotalPreorder()
    ensures Sorting.TotalPreorder(EntryLe)
  {
    forall a: FileEntry, b: FileEntry
      ensures EntryLe(a, b) || EntryLe(b, a)
    {
      LexLeTotal(Lowercase(a.name), Lowercase(b.name));
    }
    forall a: FileEntry, b: FileEntry, c: FileEntry | EntryLe(a, b) && EntryLe(b, c)
      ensures EntryLe(a, c)
    {
      if a.isDir == b.isDir && b.isDir == c.isDir {
        LexLeTrans(Lowercase(a.name), Lowercase(b.name), Lowercase(c.name));
      }
    }
  }

  /**
   * `refresh_entries`, given the listing of the selected directory: empty
   * without a directory or a readable listing, else the kept entries
   * stable-sorted by `EntryLe`.
   */
  function Entries(dir: Option<string>, listing: Option<seq<FileEntry>>, filter: Option<string>): (r: seq<FileEntry>)
    ensures dir.None? || listing.None? ==> r == []
    ensures dir.Some? && listing.Some? ==> multiset(r) == multiset(Filtered(listing.value, filter))
  {
    if dir.None? || listing.None? then [] else Sorting.SortBy(EntryLe, Filtered(listing.value, filter))
  }

  /**
   * The entries are exactly the kept items of the listing, in order,
   * directories before files, and items the order ties keep their listing order.
   */
  lemma {:induction false} EntriesOrdered(dir: string, listing: seq<FileEntry>, filter: Option<string>, x: FileEntry)
    ensures var r := Entries(Some(dir), Some(listing), filter);
            && (forall e :: e in r <==> e in listing && Keep(e.name, filter))
            && Sorting.Sorted(EntryLe, r)
            && (forall i, j :: 0 <= i < j < |r| && r[j].isDir ==> r[i].isDir)
            && Sorting.SameAs(EntryLe, r, x) == Sorting.SameAs(EntryLe, Filtered(listing, filter), x)
  {
    var kept := Filtered(listing, filter);
    var r := Entries(Some(dir), Some(listing), filter);
    EntryLeIsTotalPreorder();
    Sorting.SortBySorted(EntryLe, kept);
    Sorting.SortByStable(EntryLe, kept, x);
    forall e
      ensures e in r <==> e in kept
    {
      assert e in r <==> e in multiset(r);
      assert e in kept <==> e in multiset(kept);
    }
    forall i, j | 0 <= i < j < |r| && r[j].isDir
      ensures r[i].isDir
    {
      assert EntryLe(r[i], r[j]);
    }
  }

  /** The maximum number of characters of the directory path `draw` shows. */
  const DisplayLimit: nat := 60

  /** How a list entry is labelled: "[DIR] " before a directory's name, then the name. */
  function ItemLabel(e: FileEntry): (r: string)
    ensures e.isDir ==> r == "[DIR] " + e.name
    ensures !e.isDir ==> r == e.name
  {
    (if e.isDir then "[DIR] " else "") + e.name
  }

  /** A file picker: a directory picker above a scrollable, filtered file list. */
  class FilePicker {
    const width: u32
    const height: u32
    const pickerNormal: SkinTypes.Dims
    const pickerHover: SkinTypes.Dims
    const pickerBtnNormal: SkinTypes.Dims
    const pickerBtnHover: SkinTypes.Dims
    const trackImage: SkinTypes.Dims
    const thumbImage: SkinTypes.Dims
    const itemNormal: SkinTypes.Dims
    const itemHover: SkinTypes.Dims
    const itemSelected: SkinTypes.Dims
    const itemHeight: u32
    const pickerHeight: u32
    const scrollbarWidth: u32
    var selectedDir: Option<string>
    var entries: seq<FileEntry>
    var filter: Option<string>
    var hoveredIndex: Option<nat>
    var selectedIndex: Option<nat>
    var scrollY: real
    var textColor: u32
    var dirColor: u32
    var padding: u32
    var binding: Option<string>
    var onSelect: Option<string>
    var dialogTitle: string
    var pickerBtnHovered: bool
    var pickerHovered: bool

    /** `content_height`: the entry count times the item height, in wrapping `u32` arithmetic. */
    function ContentHeight(): (r: u32)
      reads this
      ensures |entries| * itemHeight < U32_LIMIT ==> r == |entries| * itemHeight
    {
      WrapFactor(|entries|, itemHeight);
      Wrap32(Wrap32(|entries|) * itemHeight)
    }

    /** `list_height`: the height below the picker area, in wrapping `u32` arithmetic. */
    function ListHeight(): (r: u32)
      reads this
      ensures pickerHeight <= height ==> r == height - pickerHeight
    {
      Wrap32(height - pickerHeight)
    }

    /** `max_scroll`: how far the content overhangs the visible list, or 0. */
    function MaxScroll(): (r: real)
      reads this
      ensures r >= 0.0
      ensures r > 0.0 <==> ContentHeight() > ListHeight()
      ensures r > 0.0 ==> r == (ContentHeight() - ListHeight()) as real
    {
      if ContentHeight() > ListHeight() then (ContentHeight() - ListHeight()) as real else 0.0
    }

    /** The scroll offset stays within [0, max_scroll]; the sizes are those of the images. */
    predicate Valid()
      reads this
    {
      && 0.0 <= scrollY <= MaxScroll()
      && pickerHeight == pickerNormal.height && scrollbarWidth == trackImage.width && itemHeight == itemNormal.height
    }

    /**
     * `FilePicker::new`: no directory, no entries, no filter, nothing
     * selected or hovered, scrolled to the top; light grey file names
     * (0xDDDDDD), blue directory names (0x88AAFF), padding 8.
     */
    constructor (width: u32, height: u32, pickerNormal: SkinTypes.Dims, pickerHover: SkinTypes.Dims,
                 pickerBtnNormal: SkinTypes.Dims, pickerBtnHover: SkinTypes.Dims,
                 trackImage: SkinTypes.Dims, thumbImage: SkinTypes.Dims,
                 itemNormal: SkinTypes.Dims, itemHover: SkinTypes.Dims, itemSelected: SkinTypes.Dims)
      ensures Valid()
      ensures this.width == width && this.height == height
      ensures this.pickerNormal == pickerNormal && this.pickerHover == pickerHover
      ensures this.pickerBtnNormal == pickerBtnNormal && this.pickerBtnHover == pickerBtnHover
      ensures this.trackImage == trackImage && this.thumbImage == thumbImage
      ensures this.itemNormal == itemNormal && this.itemHover == itemHover && this.itemSelected == itemSelected
      ensures selectedDir == None && entries == [] && filter == None
      ensures hoveredIndex == None && selectedIndex == None && scrollY == 0.0
      ensures textColor == 0xDDDDDD && dirColor == 0x88AAFF && padding == 8
      ensures binding == None && onSelect == None && dialogTitle == "Select Directory"
      ensures !pickerBtnHovered && !pickerHovered
    {
      this.width := width;
      this.height := height;
      this.pickerNormal := pickerNormal;
      this.pickerHover := pickerHover;
      this.pickerBtnNormal := pickerBtnNormal;
      this.pickerBtnHover := pickerBtnHover;
      this.trackImage := trackImage;
      this.thumbImage := thumbImage;
      this.itemNormal := itemNormal;
      this.itemHover := itemHover;
      this.itemSelected := itemSelected;
      itemHeight := itemNormal.height;
      pickerHeight := pickerNormal.height;
      scrollbarWidth := trackImage.width;
      selectedDir := None;
      entries := [];
      filter := None;
      hoveredIndex := None;
      selectedIndex := None;
      scrollY := 0.0;
      textColor := 0xDDDDDD;
      dirColor := 0x88AAFF;
      padding := 8;
      binding := None;
      onSelect := None;
      dialogTitle := "Select Directory";
      pickerBtnHovered := false;
      pickerHovered := false;
    }

    /** `selected_file`: the path of the selected entry, when the selection names one. */
    function SelectedFile(): (r: Option<string>)
      reads this
      ensures r.Some? <==> selectedIndex.Some? && selectedIndex.value < |entries|
      ensures r.Some? ==> r.value == entries[selectedIndex.value].path
    {
      match selectedIndex
      case Some(i) => if i < |entries| then Some(entries[i].path) else None
      case None => None
    }

    /**
     * `set_directory`, given that directory's listing: the directory is
     * selected, the entries are refreshed, and the scroll offset and the
     * selected and hovered items are reset.
     */
    method SetDirectory(path: string, listing: Option<seq<FileEntry>>)
      requires Valid()
      modifies this`selectedDir, this`entries, this`scrollY, this`selectedIndex, this`hoveredIndex
      ensures Valid()
      ensures selectedDir == Some(path) && entries == Entries(Some(path), listing, filter)
      ensures scrollY == 0.0 && selectedIndex == None && hoveredIndex == None
      ensures SelectedFile() == None
    {
      scrollY := 0.0;
      selectedIndex := None;
      hoveredIndex := None;
      selectedDir := Some(path);
      RefreshEntries(listing);
    }

    /** `refresh_entries`, given the listing of the selected directory. */
    method RefreshEntries(listing: Option<seq<FileEntry>>)
      modifies this`entries
      ensures entries == Entries(selectedDir, listing, filter)
    {
      entries := [];
      if selectedDir.None? || listing.None? {
        return;
      }
      var kept := Filtered(listing.value, filter);
      entries := Sorting.SortBy(EntryLe, kept);
    }

    /** `open_dialog`, given the dialog's outcome and the chosen directory's listing; a cancel changes nothing. */
    method OpenDialog(chosen: Option<string>, listing: Option<seq<FileEntry>>)
      requires Valid()
      modifies this`selectedDir, this`entries, this`scrollY, this`selectedIndex, this`hoveredIndex
      ensures Valid()
      ensures chosen.Some? ==> selectedDir == chosen && entries == Entries(chosen, listing, filter)
      ensures chosen.Some? ==> scrollY == 0.0 && selectedIndex == None && hoveredIndex == None
      ensures chosen.None? ==> selectedDir == old(selectedDir) && entries == old(entries) && scrollY == old(scrollY)
      ensures chosen.None? ==> selectedIndex == old(selectedIndex) && hoveredIndex == old(hoveredIndex)
    {
      if chosen.Some? {
        SetDirectory(chosen.value, listing);
      }
    }

    /** `scroll_by`: thirty pixels per wheel unit, the offset clamped to [0, max_scroll]. */
    method ScrollBy(delta: real)
      requires Valid()
      modifies this`scrollY
      ensures Valid()
      ensures scrollY == Clamp(old(scrollY) - delta * 30.0, 0.0, MaxScroll())
    {
      scrollY := Clamp(scrollY - delta * 30.0, 0.0, MaxScroll());
    }

    /** `scroll_ratio`: the offset as a fraction of the maximum, 0 when nothing can scroll. */
    function ScrollRatio(): (r: real)
      reads this
      requires Valid()
      ensures 0.0 <= r <= 1.0
      ensures MaxScroll() == 0.0 ==> r == 0.0
      ensures MaxScroll() > 0.0 ==> r * MaxScroll() == scrollY
    {
      var m := MaxScroll();
      if m > 0.0 then
        Fraction(scrollY, m);
        scrollY / m
      else 0.0
    }

    /** `thumb_y`: the thumb travels the list height left over by the thumb image, in proportion to the offset. */
    function ThumbY(trackY: int): (r: int)
      reads this
      requires Valid()
      ensures trackY <= r <= trackY + SaturatingSub(ListHeight(), thumbImage.height)
      ensures ScrollRatio() == 0.0 ==> r == trackY
    {
      var ratio := ScrollRatio();
      Portion(SaturatingSub(ListHeight(), thumbImage.height), ratio);
      trackY + (SaturatingSub(ListHeight(), thumbImage.height) as real * ratio).Floor
    }

    /** The directory text the picker area shows: the path or a placeholder, truncated to 60 characters. */
    function PickerText(): (r: string)
      reads this
      ensures selectedDir.Some? ==> r == Ellipsize(selectedDir.value, DisplayLimit)
      ensures selectedDir.None? ==> r == "Select directory..."
      ensures |r| <= DisplayLimit
    {
      EllipsizeBounded(if selectedDir.Some? then selectedDir.value else "Select directory...", DisplayLimit);
      Ellipsize(if selectedDir.Some? then selectedDir.value else "Select directory...", DisplayLimit)
    }

    /** The colour of an entry's label: the directory colour for directories, else the text colour. */
    function ItemColor(e: FileEntry): u32
      reads this
    {
      if e.isDir then dirColor else textColor
    }

    /** The background of list item `i`: the selected image, else the hover image, else the normal one. */
    function ItemBackground(i: nat): (r: SkinTypes.Dims)
      reads this
      ensures selectedIndex == Some(i) ==> r == itemSelected
      ensures selectedIndex != Some(i) && hoveredIndex == Some(i) ==> r == itemHover
      ensures selectedIndex != Some(i) && hoveredIndex != Some(i) ==> r == itemNormal
    {
      if selectedIndex == Some(i) then itemSelected
      else if hoveredIndex == Some(i) then itemHover
      else itemNormal
    }

    /** `preferred_size`: the configured size. */
    function PreferredSize(): (u32, u32)
      reads this
    {
      (width, height)
    }

    /**
     * `on_event`: a click opens the dialog and is consumed; a wheel scroll is
     * consumed, and scrolls, only when the list can scroll; every other event
     * is ignored.
     */
    method OnEvent(ev: WidgetCore.Event, chosen: Option<string>, listing: Option<seq<FileEntry>>) returns (consumed: bool)
      requires Valid()
      modifies this`selectedDir, this`entries, this`scrollY, this`selectedIndex, this`hoveredIndex
      ensures Valid()
      ensures consumed <==> ev.Click? || (ev.MouseWheel? && old(MaxScroll()) > 0.0)
      ensures ev.Click? && chosen.Some? ==> selectedDir == chosen && entries == Entries(chosen, listing, filter) && scrollY == 0.0
      ensures ev.Click? && chosen.Some? ==> selectedIndex == None && hoveredIndex == None
      ensures ev.MouseWheel? && consumed ==> scrollY == Clamp(old(scrollY) - ev.deltaY * 30.0, 0.0, MaxScroll())
      ensures !(ev.Click? && chosen.Some?) ==> entries == old(entries) && selectedDir == old(selectedDir)
      ensures !(ev.Click? && chosen.Some?) ==> selectedIndex == old(selectedIndex) && hoveredIndex == old(hoveredIndex)
      ensures !(ev.Click? && chosen.Some?) && !(ev.MouseWheel? && consumed) ==> scrollY == old(scrollY)
    {
      match ev {
        case Click =>
          OpenDialog(chosen, listing);
          consumed := true;
        case MouseWheel(deltaY) =>
          if MaxScroll() > 0.0 {
            ScrollBy(deltaY);
            consumed := true;
          } else {
            consumed := false;
          }
        case _ =>
          consumed := false;
      }
    }
  }
}
