/**
 * Turning the parsed skin file into a `Skin` (src/skin/loader.rs): each
 * part's type string, colour text, validation and alignment names are
 * mapped to their typed forms, recursively through a nested child, and
 * the first part that fails aborts the whole skin.
 *
 * Reading the file, the JSON parse itself and joining asset paths onto the
 * skin's directory are not part of this model: the input is the parsed
 * document and asset paths are carried over as written.
 */
module SkinLoader {
  import opened Prims
  import opened SkinTypes

  /** One `[[parts]]` entry as the skin file spells it. */
  datatype PartJson = PartJson(
    id: string,
    partType: string,
    asset: Option<string>,
    x: int,
    y: int,
    width: u32,
    height: u32,
    z: int,
    action: Option<string>,
    draw: Option<PartDraw>,
    textInputDraw: Option<TextInputDraw>,
    scrollbar: Option<ScrollbarDraw>,
    hit: Option<string>,
    textColor: Option<string>,
    padding: Option<u32>,
    fontSize: Option<real>,
    maxLength: Option<u32>,
    validation: Option<string>,
    content: Option<string>,
    textAlign: Option<string>,
    verticalAlign: Option<string>,
    binding: Option<string>,
    contentHeight: Option<u32>,
    child: Option<PartJson>)

  datatype SkinJson = SkinJson(meta: SkinMeta, window: SkinWindow, assets: map<string, string>, parts: seq<PartJson>)

  // ---------------------------------------------------------------------
  // Hexadecimal colours
  // ---------------------------------------------------------------------

  /** `str::trim_start_matches(pat)`: every leading repetition of `pat` is removed. */
  function TrimStartMatches(s: string, pat: string): (r: string)
    requires pat != []
    ensures |r| <= |s| && r == s[|s| - |r|..]
    ensures !OccursAt(r, pat, 0)
    decreases |s|
  {
    if |pat| <= |s| && s[..|pat|] == pat then TrimStartMatches(s[|pat|..], pat) else s
  }

  predicate IsHexDigit(c: char) {
    '0' <= c <= '9' || 'a' <= c <= 'f' || 'A' <= c <= 'F'
  }

  function HexDigitValue(c: char): (v: nat)
    requires IsHexDigit(c)
    ensures v < 16
  {
    if '0' <= c <= '9' then c as int - '0' as int
    else if 'a' <= c <= 'f' then c as int - 'a' as int + 10
    else c as int - 'A' as int + 10
  }

  /** The value of a string of hex digits, most significant first. */
  function HexValue(digits: string): nat
    requires AllHex(digits)
  {
    if digits == [] then 0
    else HexValue(digits[..|digits| - 1]) * 16 + HexDigitValue(digits[|digits| - 1])
  }

  /** Every character of `s` is a hex digit. */
  predicate AllHex(s: string) {
    forall i :: 0 <= i < |s| ==> IsHexDigit(s[i])
  }

  /** The digits `from_str_radix` reads: the text after an optional leading '+'. */
  function Unsigned(s: string): string {
    if s != [] && s[0] == '+' then s[1..] else s
  }

  /**
   * `u32::from_str_radix(s, 16).ok()`: an optional leading '+', then at
   * least one hex digit and nothing else, with a value that fits in `u32`.
   */
  function FromHexU32(s: string): (r: Option<u32>)
    ensures r.Some? <==> Unsigned(s) != [] && AllHex(Unsigned(s)) && HexValue(Unsigned(s)) < U32_LIMIT
    ensures r.Some? ==> r.value == HexValue(Unsigned(s))
    ensures s == [] || s == "+" ==> r == None
  {
    var digits := Unsigned(s);
    if digits == [] || !AllHex(digits) then
      None
    else
      var v := HexValue(digits);
      if v < U32_LIMIT then Some(v) else None
  }

  /** The `text_color` conversion: leading "0x", then leading "0X", are stripped and the rest read as hex. */
  function ParseColor(s: string): (r: Option<u32>)
  {
    FromHexU32(TrimStartMatches(TrimStartMatches(s, "0x"), "0X"))
  }

  /** The lowercase hex spelling of `v`, without leading zeros. */
  function HexDigitChar(d: nat): (c: char)
    requires d < 16
    ensures IsHexDigit(c) && HexDigitValue(c) == d
    ensures c != 'x' && c != 'X' && c != '+'
  {
    if d < 10 then ('0' as int + d) as char else ('a' as int + d - 10) as char
  }

  function ToHex(v: nat): (r: string)
    ensures r != []
    ensures forall i :: 0 <= i < |r| ==> IsHexDigit(r[i]) && r[i] != 'x' && r[i] != 'X' && r[i] != '+'
  {
    if v < 16 then [HexDigitChar(v)] else ToHex(v / 16) + [HexDigitChar(v % 16)]
  }

  /** Reading back the spelling gives the number. */
  lemma {:induction false} HexValueOfToHex(v: nat)
    ensures HexValue(ToHex(v)) == v
  {
    if v >= 16 {
      var r := ToHex(v);
      assert r[..|r| - 1] == ToHex(v / 16);
      HexValueOfToHex(v / 16);
    }
  }

  /** The lowercase spelling starts with neither prefix. */
  lemma {:induction false} ToHexNoPrefix(v: nat)
    ensures !OccursAt(ToHex(v), "0x", 0) && !OccursAt(ToHex(v), "0X", 0)
  {
    var h := ToHex(v);
    assert |h| < 2 || (h[1] != 'x' && h[1] != 'X');
  }

  /** The digits alone are read as their value when it fits in `u32`. */
  lemma {:induction false} FromHexOfToHex(v: nat)
    ensures FromHexU32(ToHex(v)) == if v < U32_LIMIT then Some(v) else None
  {
    var h := ToHex(v);
    assert Unsigned(h) == h;
    assert AllHex(h);
    HexValueOfToHex(v);
  }

  /** One leading `pat` is trimmed like the rest of the text. */
  lemma {:induction false} TrimOnce(pat: string, h: string)
    requires pat != []
    ensures TrimStartMatches(pat + h, pat) == TrimStartMatches(h, pat)
  {
    var s := pat + h;
    assert s[..|pat|] == pat && s[|pat|..] == h;
  }

  /** Text not starting with `pat` is left as it is. */
  lemma {:induction false} TrimNone(h: string, pat: string)
    requires pat != [] && !OccursAt(h, pat, 0)
    ensures TrimStartMatches(h, pat) == h
  {
  }

  /** Every colour written as "0x" followed by its hex digits is read back exactly. */
  lemma {:induction false} ParseColorRoundTrip(v: u32)
    ensures ParseColor("0x" + ToHex(v)) == Some(v)
  {
    var h := ToHex(v);
    ToHexNoPrefix(v);
    TrimOnce("0x", h);
    TrimNone(h, "0x");
    TrimNone(h, "0X");
    FromHexOfToHex(v);
  }

  /** Both prefixes are optional: the bare digits and the "0X" spelling give the same colour. */
  lemma {:induction false} ParseColorPrefixes(v: u32)
    ensures ParseColor(ToHex(v)) == Some(v)
    ensures ParseColor("0X" + ToHex(v)) == Some(v)
  {
    var h := ToHex(v);
    ToHexNoPrefix(v);
    TrimNone(h, "0x");
    TrimNone(h, "0X");
    var s := "0X" + h;
    assert !OccursAt(s, "0x", 0) by {
      assert s[1] == 'X';
    }
    TrimNone(s, "0x");
    TrimOnce("0X", h);
    FromHexOfToHex(v);
  }

  /** A value beyond `u32::MAX` is not a colour. */
  lemma {:induction false} ParseColorOverflow(v: nat)
    requires v >= U32_LIMIT
    ensures ParseColor(ToHex(v)) == None
  {
    var h := ToHex(v);
    ToHexNoPrefix(v);
    TrimNone(h, "0x");
    TrimNone(h, "0X");
    FromHexOfToHex(v);
  }

  /** Text holding a character that is not a hex digit (after the prefixes and sign) is not a colour. */
  lemma {:induction false} ParseColorRejectsNonHex(s: string, i: nat)
    requires i < |s| && !IsHexDigit(s[i]) && s[i] != '+' && s[i] != 'x' && s[i] != 'X'
    ensures ParseColor(s) == None
  {
    var c := s[i];
    assert c !in "0x" && c !in "0X";
    TrimKeepsIn(s, "0x", c);
    var u := TrimStartMatches(s, "0x");
    TrimKeepsIn(u, "0X", c);
    var t := TrimStartMatches(u, "0X");
    var k :| 0 <= k < |t| && t[k] == c;
    FromHexRejects(t, k);
  }

  /** A character that is not in `pat` survives trimming `pat` from the front. */
  lemma {:induction false} TrimKeepsIn(s: string, pat: string, c: char)
    requires pat != [] && c in s && c !in pat
    ensures c in TrimStartMatches(s, pat)
  {
    var i :| 0 <= i < |s| && s[i] == c;
    TrimKeeps(s, pat, i);
  }

  /** `from_str_radix` fails on text holding a character that is neither a hex digit nor '+'. */
  lemma {:induction false} FromHexRejects(t: string, k: nat)
    requires k < |t| && !IsHexDigit(t[k]) && t[k] != '+'
    ensures FromHexU32(t) == None
  {
    var digits := Unsigned(t);
    var m := if t[0] == '+' then k - 1 else k;
    assert 0 <= m < |digits| && digits[m] == t[k];
  }

  /**
   * Trimming a prefix made of `pat` never removes a character that is not
   * in `pat`: it is still there, at its position counted from the end.
   */
  /** A string that starts with `pat` agrees with it on the prefix. */
  lemma {:induction false} PrefixChar(s: string, pat: string, i: nat)
    requires |pat| <= |s| && s[..|pat|] == pat
    ensures i < |pat| ==> pat[i] == s[i]
  {
    if i < |pat| {
      assert s[..|pat|][i] == s[i];
    }
  }

  lemma {:induction false} TrimKeeps(s: string, pat: string, i: nat)
    requires pat != [] && i < |s|
    requires forall j :: 0 <= j < |pat| ==> pat[j] != s[i]
    ensures var r := TrimStartMatches(s, pat); i >= |s| - |r| && r[i - (|s| - |r|)] == s[i]
    decreases |s|
  {
    if |pat| <= |s| && s[..|pat|] == pat {
      PrefixChar(s, pat, i);
      TrimKeeps(s[|pat|..], pat, i - |pat|);
      assert s[|pat|..][i - |pat|] == s[i];
    }
  }

  // ---------------------------------------------------------------------
  // Name mappings
  // ---------------------------------------------------------------------

  /** The validation names; any other text is a character whitelist. */
  function ParseValidation(s: string): (r: TextValidation)
    ensures r.Pattern? <==> s !in {"numeric", "alpha", "alphanumeric", "any"}
    ensures r.Pattern? ==> r.pattern == s
  {
    if s == "numeric" then Numeric
    else if s == "alpha" then Alpha
    else if s == "alphanumeric" then Alphanumeric
    else if s == "any" then Any
    else Pattern(s)
  }

  /** The horizontal alignment names; anything else is left-aligned. */
  function ParseTextAlign(s: string): (r: TextAlign)
    ensures r == AlignCenter <==> s == "center"
    ensures r == AlignRight <==> s == "right"
  {
    if s == "left" then AlignLeft
    else if s == "center" then AlignCenter
    else if s == "right" then AlignRight
    else DefaultTextAlign
  }

  /** The vertical alignment names; anything else is centred. */
  function ParseVerticalAlign(s: string): (r: VerticalAlign)
    ensures r == AlignTop <==> s == "top"
    ensures r == AlignBottom <==> s == "bottom"
  {
    if s == "top" then AlignTop
    else if s == "center" then AlignMiddle
    else if s == "bottom" then AlignBottom
    else DefaultVerticalAlign
  }

  /** The message of a missing image asset, which names the part. */
  function MissingAssetMessage(id: string): string {
    "Image part '" + id + "' missing 'asset' field"
  }

  /** The part type of a part: the five names the file format knows, an image needing its asset. */
  function ConvertType(p: PartJson): (r: Result<PartType, SkinError>)
    ensures p.partType !in {"image", "button", "text_input", "static_text", "vscroll_container"} ==>
      r == Err(InvalidPartType(p.partType))
    ensures p.partType == "image" && p.asset.None? ==> r == Err(AssetNotFound(MissingAssetMessage(p.id)))
    ensures p.partType == "image" && p.asset.Some? ==> r == Ok(Image(p.asset.value))
    ensures r.Ok? ==> !r.value.DirectoryPicker? && !r.value.FilePicker? && !r.value.Checkbox?
  {
    match p.partType
    case "image" =>
      if p.asset.None? then Err(AssetNotFound(MissingAssetMessage(p.id))) else Ok(Image(p.asset.value))
    case "button" => Ok(Button)
    case "text_input" => Ok(TextInput)
    case "static_text" => Ok(StaticText)
    case "vscroll_container" => Ok(VScrollContainer)
    case other => Err(InvalidPartType(other))
  }

  function MapValidation(v: Option<string>): Option<TextValidation> {
    if v.Some? then Some(ParseValidation(v.value)) else None
  }

  function MapTextAlign(v: Option<string>): Option<TextAlign> {
    if v.Some? then Some(ParseTextAlign(v.value)) else None
  }

  function MapVerticalAlign(v: Option<string>): Option<VerticalAlign> {
    if v.Some? then Some(ParseVerticalAlign(v.value)) else None
  }

  function MapColor(v: Option<string>): Option<u32> {
    if v.Some? then ParseColor(v.value) else None
  }

  /** The number of parts nested in `p`, itself included. */
  function Depth(p: PartJson): nat {
    if p.child.Some? then 1 + Depth(p.child.value) else 1
  }

  /**
   * `convert_part`: the type is resolved first (an unknown type or an image
   * without asset fails), then the child is converted and its error
   * propagates; every other field is mapped or copied.
   */
  function ConvertPart(p: PartJson): (r: Result<SkinPart, SkinError>)
    ensures r.Ok? ==> ConvertType(p).Ok? && r.value.partType == ConvertType(p).value
    ensures ConvertType(p).Err? ==> r == Err(ConvertType(p).error)
    ensures ConvertType(p).Ok? && p.child.Some? && ConvertPart(p.child.value).Err? ==> r == Err(ConvertPart(p.child.value).error)
    ensures r.Ok? ==> r.value.child.Some? == p.child.Some?
    ensures r.Ok? && p.child.Some? ==> ConvertPart(p.child.value) == Ok(r.value.child.value)
    ensures r.Ok? ==> (r.value.id == p.id && r.value.x == p.x && r.value.y == p.y && r.value.z == p.z
                       && r.value.width == p.width && r.value.height == p.height)
    ensures r.Ok? ==> (r.value.textColor == MapColor(p.textColor) && r.value.validation == MapValidation(p.validation)
                       && r.value.textAlign == MapTextAlign(p.textAlign)
                       && r.value.verticalAlign == MapVerticalAlign(p.verticalAlign))
    ensures r.Ok? ==> r.value.hit == (if p.hit.Some? then Some(PartHit(HitRect)) else None)
    ensures r.Ok? ==> (r.value.binding == p.binding && r.value.action == p.action && r.value.padding == p.padding
                       && r.value.fontSize == p.fontSize && r.value.maxLength == p.maxLength
                       && r.value.content == p.content && r.value.contentHeight == p.contentHeight)
    ensures r.Ok? ==> (r.value.draw == p.draw && r.value.textInputDraw == p.textInputDraw && r.value.scrollbar == p.scrollbar)
    ensures r.Ok? ==> (r.value.directoryPickerDraw == None && r.value.filePickerDraw == None && r.value.checkboxDraw == None
                       && r.value.filter == None && r.value.onSelect == None && r.value.labelText == None)
    decreases Depth(p)
  {
    match ConvertType(p)
    case Err(e) => Err(e)
    case Ok(partType) =>
      var child :=
        if p.child.Some? then
          match ConvertPart(p.child.value)
          case Err(e) => Err(e)
          case Ok(c) => Ok(Some(c))
        else Ok(None);
      if child.Err? then
        Err(child.error)
      else
        Ok(SkinPart(
          id := p.id,
          partType := partType,
          x := p.x,
          y := p.y,
          width := p.width,
          height := p.height,
          z := p.z,
          draw := p.draw,
          textInputDraw := p.textInputDraw,
          directoryPickerDraw := None,
          filePickerDraw := None,
          checkboxDraw := None,
          scrollbar := p.scrollbar,
          hit := if p.hit.Some? then Some(PartHit(HitRect)) else None,
          action := p.action,
          textColor := MapColor(p.textColor),
          padding := p.padding,
          fontSize := p.fontSize,
          maxLength := p.maxLength,
          validation := MapValidation(p.validation),
          content := p.content,
          textAlign := MapTextAlign(p.textAlign),
          verticalAlign := MapVerticalAlign(p.verticalAlign),
          binding := p.binding,
          contentHeight := p.contentHeight,
          child := child.value,
          filter := None,
          onSelect := None,
          labelText := None))
  }

  /**
   * `Skin::load` after the file is read and parsed: metadata, window and
   * assets copied, every part converted in order, or the error of the
   * first part that fails.
   */
  function Load(json: SkinJson): (r: Result<Skin, SkinError>)
    ensures r.Ok? <==> forall i :: 0 <= i < |json.parts| ==> ConvertPart(json.parts[i]).Ok?
    ensures r.Ok? ==> (r.value.meta == json.meta && r.value.window == json.window && r.value.assets == json.assets
                       && |r.value.parts| == |json.parts|
                       && forall i :: 0 <= i < |json.parts| ==> r.value.parts[i] == ConvertPart(json.parts[i]).value)
    ensures r.Err? ==> exists k :: (0 <= k < |json.parts| && ConvertPart(json.parts[k]) == Err(r.error)
                                    && forall i :: 0 <= i < k ==> ConvertPart(json.parts[i]).Ok?)
  {
    CollectResultsOk(ConvertPart, json.parts);
    match CollectResults(ConvertPart, json.parts)
    case Err(e) =>
      CollectResultsFirstError(ConvertPart, json.parts);
      Err(e)
    case Ok(parts) => Ok(Skin(json.meta, json.window, json.assets, parts))
  }
}
