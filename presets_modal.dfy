/**
 * The presets sheet (src/components/PresetsModal.tsx): the save field and
 * its validation, the row list (display names, theme colours, the active
 * mark) and what tapping a row or its delete button does to the store.
 * The drag-to-close gesture and the styling are not modelled.
 */
module PresetsModal {
  import opened Wrappers
  import opened Text
  import opened MixerTypes
  import opened MixerStore
  import ChannelConstants

  // ---------------------------------------------------------------------------
  // Colours
  // ---------------------------------------------------------------------------

  /** `Object.values(CHANNEL_COLORS)`, in the palette's declaration order. */
  const ChannelColors: seq<string> := [
    "#ECBCBC", "#ECD4BC", "#ECECBC", "#D4ECBC", "#BCECBC", "#BCECD4",
    "#BCECEC", "#BCD4EC", "#BCBCEC", "#D4BCEC", "#ECBCEC", "#ECBCD4"]

  /** A "#RRGGBB" colour: a hash and six hexadecimal digits. */
  predicate IsHexColor(hex: string) {
    |hex| == 7 && hex[0] == '#' && forall i :: 1 <= i < 7 ==> IsHexDigit(hex[i])
  }

  /** `parseInt(hex.slice(i, i + 2), 16)` of a two-digit slice. */
  function HexByte(hex: string, i: nat): (v: nat)
    requires i + 2 <= |hex| && IsHexDigit(hex[i]) && IsHexDigit(hex[i + 1])
    ensures v < 256
  {
    HexValue(hex[i]) * 16 + HexValue(hex[i + 1])
  }

  datatype Rgb = Rgb(r: nat, g: nat, b: nat)

  /** The three components `hexToRgba` reads from the slices 1..3, 3..5 and 5..7. */
  function ParseRgb(hex: string): (c: Rgb)
    requires IsHexColor(hex)
    ensures c.r < 256 && c.g < 256 && c.b < 256
  {
    Rgb(HexByte(hex, 1), HexByte(hex, 3), HexByte(hex, 5))
  }

  /** Two upper-case hexadecimal digits of a byte. */
  function ByteHex(v: nat): (s: string)
    requires v < 256
    ensures |s| == 2 && IsHexDigit(s[0]) && IsHexDigit(s[1])
  {
    [HexChar(v / 16), HexChar(v % 16)]
  }

  /** The palette's spelling of a colour: "#RRGGBB" in upper case. */
  function HexColor(c: Rgb): (hex: string)
    requires c.r < 256 && c.g < 256 && c.b < 256
    ensures IsHexColor(hex)
  {
    "#" + ByteHex(c.r) + ByteHex(c.g) + ByteHex(c.b)
  }

  /** A colour written in the palette's spelling parses back to its components. */
  lemma ParseHexColor(c: Rgb)
    requires c.r < 256 && c.g < 256 && c.b < 256
    ensures ParseRgb(HexColor(c)) == c
  {
    var hex := HexColor(c);
    assert hex[1..3] == ByteHex(c.r) && hex[3..5] == ByteHex(c.g) && hex[5..7] == ByteHex(c.b);
  }

  predicate IsUpperHexDigit(ch: char) {
    ('0' <= ch <= '9') || ('A' <= ch <= 'F')
  }

  /** Two upper-case digits read as a byte and written back are the same two digits. */
  lemma ByteHexOfDigits(hi: char, lo: char)
    requires IsUpperHexDigit(hi) && IsUpperHexDigit(lo)
    ensures ByteHex(HexValue(hi) * 16 + HexValue(lo)) == [hi, lo]
  {
    var h, l := HexValue(hi), HexValue(lo);
    assert (h * 16 + l) / 16 == h && (h * 16 + l) % 16 == l;
  }

  /** Parsing an upper-case "#RRGGBB" and writing it back gives the same text. */
  lemma HexColorOfParse(hex: string)
    requires IsHexColor(hex) && forall i :: 1 <= i < 7 ==> IsUpperHexDigit(hex[i])
    ensures HexColor(ParseRgb(hex)) == hex
  {
    var c := ParseRgb(hex);
    ByteHexOfDigits(hex[1], hex[2]);
    ByteHexOfDigits(hex[3], hex[4]);
    ByteHexOfDigits(hex[5], hex[6]);
    assert ByteHex(c.r) == [hex[1], hex[2]];
    assert ByteHex(c.g) == [hex[3], hex[4]];
    assert ByteHex(c.b) == [hex[5], hex[6]];
    assert hex == [hex[0]] + [hex[1], hex[2]] + [hex[3], hex[4]] + [hex[5], hex[6]];
  }

  /** Every palette entry is an upper-case "#RRGGBB" colour. */
  lemma PaletteIsHex()
    ensures |ChannelColors| == 12
    ensures forall k :: 0 <= k < 12 ==>
      IsHexColor(ChannelColors[k]) && forall i :: 1 <= i < 7 ==> IsUpperHexDigit(ChannelColors[k][i])
  {
  }

  /** `rgba(${r}, ${g}, ${b}, ${alpha})` with the alpha already rendered as `alphaText`. */
  function HexToRgba(hex: string, alphaText: string): string
    requires IsHexColor(hex)
  {
    var c := ParseRgb(hex);
    "rgba(" + NatToString(c.r) + ", " + NatToString(c.g) + ", " + NatToString(c.b) + ", " + alphaText + ")"
  }

  /** The rgba text of a palette-spelled colour names its three components in decimal, in order. */
  lemma RgbaNamesComponents(c: Rgb, alphaText: string)
    requires c.r < 256 && c.g < 256 && c.b < 256
    ensures HexToRgba(HexColor(c), alphaText)
         == "rgba(" + NatToString(c.r) + ", " + NatToString(c.g) + ", " + NatToString(c.b) + ", " + alphaText + ")"
    ensures DecimalValue(NatToString(c.r)) == c.r && DecimalValue(NatToString(c.g)) == c.g
    ensures DecimalValue(NatToString(c.b)) == c.b
  {
    ParseHexColor(c);
    DecimalRoundTrip(c.r);
    DecimalRoundTrip(c.g);
    DecimalRoundTrip(c.b);
  }

  /** `index % colors.length`: the palette position of the row at `index`. */
  function ColorIndex(index: nat): (k: nat)
    ensures k < |ChannelColors|
  {
    index % 12
  }

  /** Rows twelve apart share a palette position; rows closer than twelve get different ones. */
  lemma ColorIndexCycle(i: nat, j: nat)
    ensures ColorIndex(i + 12) == ColorIndex(i)
    ensures i < j < i + 12 ==> ColorIndex(j) != ColorIndex(i)
  {
    var q, r := i / 12, i % 12;
    assert i == 12 * q + r;
    assert i + 12 == 12 * (q + 1) + r;
    if i < j < i + 12 {
      var q2, r2 := j / 12, j % 12;
      assert j == 12 * q2 + r2;
    }
  }

  /** The row's theme colour, a "#RRGGBB" palette entry. */
  function ThemeColor(index: nat): (color: string)
    ensures color in ChannelColors && IsHexColor(color)
  {
    PaletteIsHex();
    ChannelColors[ColorIndex(index)]
  }

  // ---------------------------------------------------------------------------
  // Rows
  // ---------------------------------------------------------------------------

  /** The name a row shows: the translated title for the two built-in presets, the stored name otherwise. */
  function DisplayName(p: Preset, calmTitle: string, stormTitle: string): string {
    if p.id == ChannelConstants.StormPresetId then stormTitle
    else if p.id == ChannelConstants.CalmPresetId then calmTitle
    else p.name
  }

  /** The row is marked (check icon, theme-coloured name and background) when it is the current preset. */
  predicate IsActiveRow(p: Preset, currentPresetId: Option<string>) {
    Some(p.id) == currentPresetId
  }

  /** A freshly saved preset is listed last, under the name it was saved with, and is the marked row. */
  lemma SavedPresetRow(s: MixerState, name: string, now: nat, calmTitle: string, stormTitle: string)
    ensures var t := UserPresetSaved(s, name, now);
      && |t.presets| == |s.presets| + 1
      && DisplayName(t.presets[|s.presets|], calmTitle, stormTitle) == name
      && IsActiveRow(t.presets[|s.presets|], t.currentPresetId)
      && forall j :: 0 <= j < |s.presets| ==>
           (IsActiveRow(t.presets[j], t.currentPresetId) <==> t.presets[j].id == UserPresetId(now))
  {
    var id := UserPresetId(now);
    assert id[7] == 'u';
    assert ChannelConstants.CalmPresetId[7] == 'd' && ChannelConstants.StormPresetId[7] == 'd';
  }

  /** After a row is tapped, exactly the rows carrying its id are marked. */
  lemma TappedRowIsMarked(s: MixerState, index: nat)
    requires index < |s.presets|
    ensures var t := PresetLoaded(s, s.presets[index].id);
      && t.presets == s.presets
      && forall j :: 0 <= j < |t.presets| ==>
           (IsActiveRow(t.presets[j], t.currentPresetId) <==> t.presets[j].id == s.presets[index].id)
  {
    assert FindPresetIndex(s.presets, s.presets[index].id) != -1;
  }

  /** After a row's delete button, no row carries its id, and if it was the marked row no row is marked. */
  lemma DeletedRowIsGone(s: MixerState, index: nat)
    requires index < |s.presets|
    ensures var id := s.presets[index].id;
      var t := UserPresetDeleted(s, id);
      && (forall j :: 0 <= j < |t.presets| ==> t.presets[j].id != id)
      && (IsActiveRow(s.presets[index], s.currentPresetId) ==>
            forall j :: 0 <= j < |t.presets| ==> !IsActiveRow(t.presets[j], t.currentPresetId))
  {
    var id := s.presets[index].id;
    DeletePreset(s, id);
    var t := UserPresetDeleted(s, id);
    assert forall j :: 0 <= j < |t.presets| ==> t.presets[j] in t.presets;
  }

  // ---------------------------------------------------------------------------
  // The sheet
  // ---------------------------------------------------------------------------

  /** The text field's `maxLength`. */
  const MaxNameLength: nat := 30

  /** The save button is enabled, and `handleSave` saves, iff the trimmed name is not empty. */
  predicate CanSave(input: string) {
    |Trim(input)| > 0
  }

  /** `handleSave` on the store's value: the saved state, or the unchanged state for a blank name. */
  function SaveRequested(s: MixerState, input: string, now: nat): MixerState {
    if CanSave(input) then UserPresetSaved(s, Trim(input), now) else s
  }

  /**
   * A blank or whitespace-only name saves nothing; otherwise exactly one
   * preset is appended, named by the trimmed text, holding the channels of
   * the moment, and it becomes current.
   */
  lemma SaveValidation(s: MixerState, input: string, now: nat)
    ensures var t := SaveRequested(s, input, now);
      && ((forall i :: 0 <= i < |input| ==> IsJsWhitespace(input[i])) <==> t == s)
      && (t != s ==>
            && t.presets[..|s.presets|] == s.presets && |t.presets| == |s.presets| + 1
            && var p := t.presets[|s.presets|];
               && p.name == Trim(input) && p.name != [] && p.channels == s.channels
               && !IsJsWhitespace(p.name[0]) && !IsJsWhitespace(p.name[|p.name| - 1])
               && t.currentPresetId == Some(p.id)
               && t.(presets := s.presets, currentPresetId := s.currentPresetId) == s)
  {
    if CanSave(input) {
      var t := SaveRequested(s, input, now);
      assert |t.presets| != |s.presets|;
    }
  }

  /** The sheet's local state: the name being typed and the parent's visibility flag that `onClose` clears. */
  class Sheet {
    var newPresetName: string
    var visible: bool

    ghost predicate Valid()
      reads this
    {
      |newPresetName| <= MaxNameLength
    }

    constructor (visible: bool)
      ensures Valid() && newPresetName == [] && this.visible == visible
    {
      newPresetName := [];
      this.visible := visible;
    }

    /** `onChangeText`: the field keeps at most 30 characters of what was typed or pasted. */
    method ChangeText(text: string)
      modifies this
      ensures Valid() && visible == old(visible)
      ensures newPresetName == if |text| <= MaxNameLength then text else text[..MaxNameLength]
    {
      newPresetName := if |text| <= MaxNameLength then text else text[..MaxNameLength];
    }

    /** `handleSave` (also the save button's press, which is only wired when CanSave holds). */
    method HandleSave(store: Store, now: nat)
      requires Valid()
      modifies this, store
      ensures Valid() && visible == old(visible)
      ensures store.Snapshot() == SaveRequested(old(store.Snapshot()), old(newPresetName), now)
      ensures newPresetName == if CanSave(old(newPresetName)) then [] else old(newPresetName)
    {
      if |Trim(newPresetName)| > 0 {
        store.SaveUserPreset(Trim(newPresetName), now);
        newPresetName := [];
      }
    }

    /** Tapping the row at `index`: load that preset, then close the sheet. */
    method RowPressed(store: Store, index: nat)
      requires index < |store.presets|
      modifies this, store
      ensures newPresetName == old(newPresetName) && !visible
      ensures store.Snapshot() == PresetLoaded(old(store.Snapshot()), old(store.presets[index].id))
    {
      store.LoadPreset(store.presets[index].id);
      visible := false;
    }

    /** The row's delete button: delete that preset; the sheet stays open. */
    method DeletePressed(store: Store, index: nat)
      requires index < |store.presets|
      modifies store
      ensures store.Snapshot() == UserPresetDeleted(old(store.Snapshot()), old(store.presets[index].id))
    {
      store.DeleteUserPreset(store.presets[index].id);
    }
  }

  /** A name saved through the sheet is at most 30 characters long. */
  lemma SavedNameFitsField(s: MixerState, input: string, now: nat)
    requires |input| <= MaxNameLength && CanSave(input)
    ensures var t := SaveRequested(s, input, now);
      0 < |t.presets[|t.presets| - 1].name| <= MaxNameLength
  {
  }
}
