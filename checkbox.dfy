/**
 * The two-state checkbox (src/skin/widgets/checkbox.rs): a checked flag
 * toggled by clicks, with a dirty flag for syncing to the store.
 *
 * The transitions are specified on a `Check` value (checked and dirty) and
 * the widget's methods are proved to perform them. Images are reduced to
 * their dimensions.
 */
module CheckboxWidget {
  import opened Prims
  import WidgetCore
  import SkinTypes

  /** The state a checkbox's transitions act on. */
  datatype Check = Check(checked: bool, dirty: bool)

  /** `toggle`: the flag flips and the box becomes dirty. */
  function Flip(s: Check): (r: Check)
    ensures r.checked != s.checked && r.dirty
  {
    Check(!s.checked, true)
  }

  /** `set_checked`: a no-op when the flag already has that value; otherwise it takes it and the box becomes dirty. */
  function Assign(s: Check, b: bool): (r: Check)
    ensures r.checked == b
    ensures r.dirty == (s.dirty || s.checked != b)
  {
    if s.checked != b then Check(b, true) else s
  }

  /** Two toggles restore the checked flag (and leave the box dirty). */
  lemma {:induction false} FlipTwice(s: Check)
    ensures Flip(Flip(s)).checked == s.checked && Flip(Flip(s)).dirty
  {
  }

  /** Setting the flag it already has changes nothing; setting it twice is setting it once. */
  lemma {:induction false} AssignIdempotent(s: Check, b: bool)
    ensures Assign(s, s.checked) == s
    ensures Assign(Assign(s, b), b) == Assign(s, b)
  {
  }

  /** A toggle is a `set_checked` of the opposite value. */
  lemma {:induction false} FlipIsAssignOpposite(s: Check)
    ensures Flip(s) == Assign(s, !s.checked)
  {
  }

  /** A checkbox with checked and unchecked images and an optional label. */
  class Checkbox {
    const unchecked: SkinTypes.Dims
    const checked: SkinTypes.Dims
    const width: u32
    const height: u32
    var isChecked: bool
    var labelText: Option<string>
    var textColor: u32
    var fontSize: Option<real>
    var padding: u32
    var binding: Option<string>
    var action: Option<string>
    var dirty: bool

    function State(): Check
      reads this
    {
      Check(isChecked, dirty)
    }

    /** The size is the unchecked image's. */
    predicate Valid()
      reads this
    {
      width == unchecked.width && height == unchecked.height
    }

    /**
     * `Checkbox::new`: unchecked, not dirty, no label, light grey text
     * (0xDDDDDD), padding 8, the size of the unchecked image.
     */
    constructor (unchecked: SkinTypes.Dims, checked: SkinTypes.Dims)
      ensures Valid() && this.unchecked == unchecked && this.checked == checked
      ensures State() == Check(false, false)
      ensures labelText == None && textColor == 0xDDDDDD && fontSize == None && padding == 8
      ensures binding == None && action == None
    {
      this.unchecked := unchecked;
      this.checked := checked;
      width := unchecked.width;
      height := unchecked.height;
      isChecked := false;
      labelText := None;
      textColor := 0xDDDDDD;
      fontSize := None;
      padding := 8;
      binding := None;
      action := None;
      dirty := false;
    }

    /** `with_checked`: the initial state, set without marking the box dirty. */
    method WithChecked(b: bool)
      modifies this`isChecked
      ensures State() == Check(b, old(dirty))
    {
      isChecked := b;
    }

    /** `preferred_size`: the unchecked image's size. */
    function PreferredSize(): (r: (u32, u32))
      reads this
      requires Valid()
      ensures r == (unchecked.width, unchecked.height)
    {
      (width, height)
    }

    /** `clear_dirty`: only the dirty flag changes. */
    method ClearDirty()
      modifies this`dirty
      ensures State() == Check(old(isChecked), false)
    {
      dirty := false;
    }

    /** `set_checked`. */
    method SetChecked(b: bool)
      modifies this`isChecked, this`dirty
      ensures State() == Assign(old(State()), b)
    {
      if isChecked != b {
        isChecked := b;
        dirty := true;
      }
    }

    /** `toggle`. */
    method Toggle()
      modifies this`isChecked, this`dirty
      ensures State() == Flip(old(State()))
    {
      isChecked := !isChecked;
      dirty := true;
    }

    /** `on_event`: a click toggles and is consumed; any other event is ignored and changes nothing. */
    method OnEvent(ev: WidgetCore.Event) returns (consumed: bool)
      modifies this`isChecked, this`dirty
      ensures consumed <==> ev.Click?
      ensures State() == if ev.Click? then Flip(old(State())) else old(State())
    {
      if ev.Click? {
        Toggle();
        return true;
      }
      return false;
    }
  }
}
