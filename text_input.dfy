/**
 * The skinned single-line text input (src/skin/widgets/text_input.rs):
 * text and cursor editing under a character validation mode and an
 * optional maximum length, with a dirty flag for syncing to the store.
 *
 * Each edit is specified as a function on an `Editing` value (the text and
 * the cursor), and the widget's methods are proved to perform it. Images
 * are reduced to their dimensions. The blink timer's clock and
 * click-to-cursor placement are not modelled; the caret's visibility flag
 * is.
 */
module TextInputWidget {
  import opened Prims
  import WidgetCore
  import SkinTypes

  type TextValidation = SkinTypes.TextValidation

  /** A code point in the printable ASCII range 32..=126. */
  predicate Printable(c: char) {
    32 <= c as int <= 126
  }

  predicate IsAsciiDigit(c: char) {
    '0' <= c <= '9'
  }

  predicate IsAsciiAlpha(c: char) {
    'a' <= c <= 'z' || 'A' <= c <= 'Z'
  }

  /**
   * `validate_char`: a character outside printable ASCII is always refused;
   * otherwise the mode decides, a pattern being a whitelist of characters.
   */
  function ValidateChar(validation: TextValidation, c: char): (ok: bool)
    ensures ok ==> Printable(c)
    ensures validation.Any? ==> (ok <==> Printable(c))
    ensures validation.Numeric? ==> (ok <==> IsAsciiDigit(c))
    ensures validation.Alpha? ==> (ok <==> IsAsciiAlpha(c))
    ensures validation.Alphanumeric? ==> (ok <==> IsAsciiDigit(c) || IsAsciiAlpha(c))
    ensures validation.Pattern? ==> (ok <==> Printable(c) && c in validation.pattern)
  {
    if !Printable(c) then false
    else
      match validation
      case Any => true
      case Numeric => IsAsciiDigit(c)
      case Alpha => IsAsciiAlpha(c)
      case Alphanumeric => IsAsciiDigit(c) || IsAsciiAlpha(c)
      case Pattern(p) => c in p
  }

  /** The alphanumeric mode accepts exactly what the alphabetic or the numeric mode accepts. */
  lemma {:induction false} AlphanumericIsAlphaOrNumeric(c: char)
    ensures ValidateChar(SkinTypes.Alphanumeric, c) <==> ValidateChar(SkinTypes.Alpha, c) || ValidateChar(SkinTypes.Numeric, c)
  {
  }

  /** Every mode accepts a subset of what `Any` accepts; a control character passes no mode, not even a pattern naming it. */
  lemma {:induction false} AnyIsMostPermissive(validation: TextValidation, c: char)
    ensures ValidateChar(validation, c) ==> ValidateChar(SkinTypes.Any, c)
    ensures c as int < 32 ==> !ValidateChar(SkinTypes.Pattern([c]), c)
  {
  }

  /** `s` with `c` inserted at position `i` (`String::insert`). */
  function InsertAt(s: string, i: nat, c: char): (r: string)
    requires i <= |s|
    ensures |r| == |s| + 1 && r[i] == c
    ensures r[..i] == s[..i] && r[i + 1..] == s[i..]
  {
    s[..i] + [c] + s[i..]
  }

  /** `s` without the character at position `i` (`String::remove`). */
  function RemoveAt(s: string, i: nat): (r: string)
    requires i < |s|
    ensures |r| == |s| - 1
    ensures r[..i] == s[..i] && r[i..] == s[i + 1..]
  {
    s[..i] + s[i + 1..]
  }

  /** Removing the character just inserted gives the original text back. */
  lemma {:induction false} RemoveInserted(s: string, i: nat, c: char)
    requires i <= |s|
    ensures RemoveAt(InsertAt(s, i, c), i) == s
  {
    var t := InsertAt(s, i, c);
    assert RemoveAt(t, i) == t[..i] + t[i + 1..];
    assert s == s[..i] + s[i..];
  }

  /** The editable state of a text input: its text and its cursor position. */
  datatype Editing = Editing(text: string, cursor: nat) {
    /** The cursor lies in 0..=|text|. */
    predicate Valid() {
      cursor <= |text|
    }
  }

  /**
   * `insert_char`: refused (None) when the text is already at the maximum
   * length or the character is invalid; otherwise the character goes in at
   * the cursor and the cursor moves past it.
   */
  function TypeChar(e: Editing, c: char, maxLength: Option<u32>, validation: TextValidation): (r: Option<Editing>)
    requires e.Valid()
    ensures r.Some? <==> (maxLength.None? || |e.text| < maxLength.value) && ValidateChar(validation, c)
    ensures r.Some? ==> r.value.Valid() && r.value.cursor == e.cursor + 1
    ensures r.Some? ==> |r.value.text| == |e.text| + 1 && r.value.text[e.cursor] == c
    ensures r.Some? ==> r.value.text[..e.cursor] == e.text[..e.cursor] && r.value.text[e.cursor + 1..] == e.text[e.cursor..]
    ensures r.Some? && maxLength.Some? ==> |r.value.text| <= maxLength.value
  {
    if maxLength.Some? && |e.text| >= maxLength.value then None
    else if !ValidateChar(validation, c) then None
    else Some(Editing(InsertAt(e.text, e.cursor, c), e.cursor + 1))
  }

  /** `backspace`: the character before the cursor goes and the cursor steps back; nothing at the start. */
  function EraseBack(e: Editing): (r: Option<Editing>)
    requires e.Valid()
    ensures r.Some? <==> e.cursor > 0
    ensures r.Some? ==> r.value.Valid() && r.value.cursor == e.cursor - 1 && |r.value.text| == |e.text| - 1
    ensures r.Some? ==> r.value.text[..e.cursor - 1] == e.text[..e.cursor - 1] && r.value.text[e.cursor - 1..] == e.text[e.cursor..]
  {
    if e.cursor > 0 then Some(Editing(RemoveAt(e.text, e.cursor - 1), e.cursor - 1)) else None
  }

  /** `delete`: the character at the cursor goes and the cursor stays; nothing at the end. */
  function EraseForward(e: Editing): (r: Option<Editing>)
    requires e.Valid()
    ensures r.Some? <==> e.cursor < |e.text|
    ensures r.Some? ==> r.value.Valid() && r.value.cursor == e.cursor && |r.value.text| == |e.text| - 1
    ensures r.Some? ==> r.value.text[..e.cursor] == e.text[..e.cursor] && r.value.text[e.cursor..] == e.text[e.cursor + 1..]
  {
    if e.cursor < |e.text| then Some(Editing(RemoveAt(e.text, e.cursor), e.cursor)) else None
  }

  /** `move_left`, `move_right`, `move_home`, `move_end`: the text stays, the cursor moves within 0..=|text|. */
  function Move(e: Editing, key: WidgetCore.KeyCode): (r: Editing)
    requires e.Valid() && (key.Left? || key.Right? || key.Home? || key.End?)
    ensures r.Valid() && r.text == e.text
    ensures key.Left? ==> r.cursor == Max(e.cursor - 1, 0)
    ensures key.Right? ==> r.cursor == Min(e.cursor + 1, |e.text|)
    ensures key.Home? ==> r.cursor == 0
    ensures key.End? ==> r.cursor == |e.text|
  {
    match key
    case Left => if e.cursor > 0 then e.(cursor := e.cursor - 1) else e
    case Right => if e.cursor < |e.text| then e.(cursor := e.cursor + 1) else e
    case Home => e.(cursor := 0)
    case End => e.(cursor := |e.text|)
  }

  /** `set_text`: the new text, with the cursor pulled back to its end if it lay beyond. */
  function Retext(e: Editing, text: string): (r: Editing)
    ensures r.Valid() && r.text == text
    ensures r.cursor <= e.cursor
    ensures e.cursor <= |text| ==> r.cursor == e.cursor
  {
    Editing(text, Min(e.cursor, |text|))
  }

  /** Backspace right after typing a character undoes it: text and cursor are as before. */
  lemma {:induction false} BackspaceUndoesType(e: Editing, c: char, maxLength: Option<u32>, validation: TextValidation)
    requires e.Valid() && TypeChar(e, c, maxLength, validation).Some?
    ensures EraseBack(TypeChar(e, c, maxLength, validation).value) == Some(e)
  {
    RemoveInserted(e.text, e.cursor, c);
  }

  /** Typing a character, stepping left over it and deleting it also restores the state. */
  lemma {:induction false} DeleteUndoesTypeAfterLeft(e: Editing, c: char, maxLength: Option<u32>, validation: TextValidation)
    requires e.Valid() && TypeChar(e, c, maxLength, validation).Some?
    ensures EraseForward(Move(TypeChar(e, c, maxLength, validation).value, WidgetCore.Left)) == Some(e)
  {
    RemoveInserted(e.text, e.cursor, c);
  }

  /** Stepping right then left returns to the same place, unless already at the end. */
  lemma {:induction false} RightThenLeft(e: Editing)
    requires e.Valid() && e.cursor < |e.text|
    ensures Move(Move(e, WidgetCore.Right), WidgetCore.Left) == e
  {
  }

  /** What an edit key does: the new editing state, and whether the text changed. */
  function KeyEdit(e: Editing, key: WidgetCore.KeyCode): (r: (Editing, bool))
    requires e.Valid()
    ensures r.0.Valid()
    ensures r.1 <==> (key.Backspace? && e.cursor > 0) || (key.Delete? && e.cursor < |e.text|)
    ensures r.1 ==> |r.0.text| == |e.text| - 1
    ensures !r.1 ==> r.0.text == e.text
    ensures key.Enter? ==> r.0 == e
  {
    match key
    case Backspace => (EraseBack(e).GetOr(e), EraseBack(e).Some?)
    case Delete => (EraseForward(e).GetOr(e), EraseForward(e).Some?)
    case Enter => (e, false)
    case _ => (Move(e, key), false)
  }

  /** The key or character edit makes the caret visible again (`reset_blink`). */
  predicate ResetsBlink(e: Editing, ev: WidgetCore.Event, maxLength: Option<u32>, validation: TextValidation)
    requires e.Valid()
  {
    match ev
    case CharInput(c) => TypeChar(e, c, maxLength, validation).Some?
    case KeyDown(key) =>
      (match key
       case Backspace => e.cursor > 0
       case Delete => e.cursor < |e.text|
       case Left => e.cursor > 0
       case Right => e.cursor < |e.text|
       case Home => true
       case End => true
       case Enter => false)
    case FocusGained => true
    case _ => false
  }

  /** A skinned single-line text input. */
  class TextInput {
    var text: string
    var cursor: nat
    const normal: SkinTypes.Dims
    const hover: SkinTypes.Dims
    const focused: SkinTypes.Dims
    const invalid: Option<SkinTypes.Dims>
    const width: u32
    const height: u32
    var padding: u32
    var textColor: u32
    var caretColor: u32
    var fontSize: Option<real>
    var maxLength: Option<u32>
    var validation: TextValidation
    var isInvalid: bool
    var caretVisible: bool
    var onChangeAction: Option<string>
    var onSubmitAction: Option<string>
    var binding: Option<string>
    var dirty: bool

    /** The text and cursor together. */
    function State(): Editing
      reads this
    {
      Editing(text, cursor)
    }

    /** The cursor stays within 0..=|text|; the size is the normal image's. */
    predicate Valid()
      reads this
    {
      cursor <= |text| && width == normal.width && height == normal.height
    }

    /**
     * `TextInput::new`: empty text at cursor 0, the size of the normal
     * image, padding 4, black text and caret, no limit, any character, the
     * caret visible and nothing dirty.
     */
    constructor (normal: SkinTypes.Dims, hover: SkinTypes.Dims, focused: SkinTypes.Dims, invalid: Option<SkinTypes.Dims>)
      ensures Valid() && text == "" && cursor == 0
      ensures this.normal == normal && this.hover == hover && this.focused == focused && this.invalid == invalid
      ensures width == normal.width && height == normal.height
      ensures padding == 4 && textColor == 0 && caretColor == 0 && fontSize == None
      ensures maxLength == None && validation == SkinTypes.Any && !isInvalid && caretVisible
      ensures onChangeAction == None && onSubmitAction == None && binding == None && !dirty
    {
      text := "";
      cursor := 0;
      this.normal := normal;
      this.hover := hover;
      this.focused := focused;
      this.invalid := invalid;
      width := normal.width;
      height := normal.height;
      padding := 4;
      textColor := 0;
      caretColor := 0;
      fontSize := None;
      maxLength := None;
      validation := SkinTypes.Any;
      isInvalid := false;
      caretVisible := true;
      onChangeAction := None;
      onSubmitAction := None;
      binding := None;
      dirty := false;
    }

    /** `preferred_size`: the normal image's size. */
    function PreferredSize(): (r: (u32, u32))
      reads this
      requires Valid()
      ensures r == (normal.width, normal.height)
    {
      (width, height)
    }

    /** `effective_font_size`: the configured size, else 16. */
    function EffectiveFontSize(): (r: real)
      reads this
      ensures fontSize.Some? ==> r == fontSize.value
      ensures fontSize.None? ==> r == 16.0
    {
      fontSize.GetOr(16.0)
    }

    /** `clear_dirty`: only the dirty flag changes. */
    method ClearDirty()
      modifies this`dirty
      ensures !dirty
    {
      dirty := false;
    }

    /** `set_text`: replaces the text and clamps the cursor; it does not mark the input dirty. */
    method SetText(t: string)
      requires Valid()
      modifies this`text, this`cursor
      ensures Valid()
      ensures State() == Retext(old(State()), t)
    {
      text := t;
      cursor := Min(cursor, |text|);
    }

    /** `set_invalid`. */
    method SetInvalid(b: bool)
      modifies this`isInvalid
      ensures isInvalid == b
    {
      isInvalid := b;
    }

    /** `insert_char`: performs `TypeChar`; on success the input is dirty and the caret shown. */
    method InsertChar(c: char) returns (modified: bool)
      requires Valid()
      modifies this`text, this`cursor, this`dirty, this`caretVisible
      ensures Valid()
      ensures modified <==> TypeChar(old(State()), c, maxLength, validation).Some?
      ensures modified ==> State() == TypeChar(old(State()), c, maxLength, validation).value && dirty && caretVisible
      ensures !modified ==> State() == old(State()) && dirty == old(dirty) && caretVisible == old(caretVisible)
    {
      if maxLength.Some? && |text| >= maxLength.value {
        return false;
      }
      if !ValidateChar(validation, c) {
        return false;
      }
      text := text[..cursor] + [c] + text[cursor..];
      cursor := cursor + 1;
      dirty := true;
      caretVisible := true;
      return true;
    }

    /** `backspace`: performs `EraseBack`; on success the input is dirty and the caret shown. */
    method Backspace() returns (modified: bool)
      requires Valid()
      modifies this`text, this`cursor, this`dirty, this`caretVisible
      ensures Valid()
      ensures modified <==> EraseBack(old(State())).Some?
      ensures modified ==> State() == EraseBack(old(State())).value && dirty && caretVisible
      ensures !modified ==> State() == old(State()) && dirty == old(dirty) && caretVisible == old(caretVisible)
    {
      if cursor > 0 {
        cursor := cursor - 1;
        text := text[..cursor] + text[cursor + 1..];
        dirty := true;
        caretVisible := true;
        return true;
      }
      return false;
    }

    /** `delete`: performs `EraseForward`; on success the input is dirty and the caret shown. */
    method Delete() returns (modified: bool)
      requires Valid()
      modifies this`text, this`cursor, this`dirty, this`caretVisible
      ensures Valid()
      ensures modified <==> EraseForward(old(State())).Some?
      ensures modified ==> State() == EraseForward(old(State())).value && dirty && caretVisible
      ensures !modified ==> State() == old(State()) && dirty == old(dirty) && caretVisible == old(caretVisible)
    {
      if cursor < |text| {
        text := text[..cursor] + text[cursor + 1..];
        dirty := true;
        caretVisible := true;
        return true;
      }
      return false;
    }

    /** `move_left`: one step towards the start; a move shows the caret. */
    method MoveLeft()
      requires Valid()
      modifies this`cursor, this`caretVisible
      ensures Valid()
      ensures State() == Move(old(State()), WidgetCore.Left)
      ensures caretVisible == (old(cursor) > 0 || old(caretVisible))
    {
      if cursor > 0 {
        cursor := cursor - 1;
        caretVisible := true;
      }
    }

    /** `move_right`: one step towards the end; a move shows the caret. */
    method MoveRight()
      requires Valid()
      modifies this`cursor, this`caretVisible
      ensures Valid()
      ensures State() == Move(old(State()), WidgetCore.Right)
      ensures caretVisible == (old(cursor) < |text| || old(caretVisible))
    {
      if cursor < |text| {
        cursor := cursor + 1;
        caretVisible := true;
      }
    }

    /** `move_home`. */
    method MoveHome()
      requires Valid()
      modifies this`cursor, this`caretVisible
      ensures Valid()
      ensures State() == Move(old(State()), WidgetCore.Home)
      ensures caretVisible
    {
      cursor := 0;
      caretVisible := true;
    }

    /** `move_end`. */
    method MoveEnd()
      requires Valid()
      modifies this`cursor, this`caretVisible
      ensures Valid()
      ensures State() == Move(old(State()), WidgetCore.End)
      ensures caretVisible
    {
      cursor := |text|;
      caretVisible := true;
    }

    /**
     * `on_event`: a character is typed (consumed iff it went in); every key
     * is consumed and edits as `KeyEdit` says; focus changes show or hide
     * the caret; clicks and presses are consumed without change; the rest
     * are ignored. The input turns dirty exactly when its text changes.
     */
    method OnEvent(ev: WidgetCore.Event) returns (consumed: bool)
      requires Valid()
      modifies this`text, this`cursor, this`dirty, this`caretVisible
      ensures Valid()
      ensures consumed <==> match ev
        case CharInput(c) => TypeChar(old(State()), c, maxLength, validation).Some?
        case KeyDown(_) => true
        case FocusGained => true
        case FocusLost => true
        case Click => true
        case MouseDown(_, _) => true
        case _ => false
      ensures ev.CharInput? ==> State() == TypeChar(old(State()), ev.c, maxLength, validation).GetOr(old(State()))
      ensures ev.CharInput? ==> dirty == (old(dirty) || consumed)
      ensures ev.KeyDown? ==> State() == KeyEdit(old(State()), ev.key).0
      ensures ev.KeyDown? ==> dirty == (old(dirty) || KeyEdit(old(State()), ev.key).1)
      ensures !ev.CharInput? && !ev.KeyDown? ==> State() == old(State()) && dirty == old(dirty)
      ensures caretVisible == if ev.FocusLost? then false
                              else ResetsBlink(old(State()), ev, maxLength, validation) || old(caretVisible)
    {
      match ev {
        case CharInput(c) =>
          consumed := InsertChar(c);
        case KeyDown(key) =>
          match key {
            case Backspace =>
              var _ := Backspace();
            case Delete =>
              var _ := Delete();
            case Left =>
              MoveLeft();
            case Right =>
              MoveRight();
            case Home =>
              MoveHome();
            case End =>
              MoveEnd();
            case Enter =>
          }
          consumed := true;
        case FocusGained =>
          caretVisible := true;
          consumed := true;
        case FocusLost =>
          caretVisible := false;
          consumed := true;
        case Click =>
          consumed := true;
        case MouseDown(_, _) =>
          consumed := true;
        case _ =>
          consumed := false;
      }
    }
  }
}
