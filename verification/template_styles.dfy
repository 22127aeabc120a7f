/** Template styling: the hex-to-RGB conversion, the CSS custom properties written for a
    template configuration, and the class names and colour schemes per template type. */
module TemplateStyles {
  import opened Base
  import opened Strings
  import opened TemplateTypes

  // ---------------------------------------------------------------------------------------
  // Hex colours

  /** A character of the pattern class `[a-f\d]` under the case-insensitive flag. */
  predicate IsHexDigit(c: char) {
    '0' <= c <= '9' || 'a' <= c <= 'f' || 'A' <= c <= 'F'
  }

  function HexValue(c: char): (v: nat)
    requires IsHexDigit(c)
    ensures v < 16
  {
    if '0' <= c <= '9' then c as int - '0' as int
    else if 'a' <= c <= 'f' then c as int - 'a' as int + 10
    else c as int - 'A' as int + 10
  }

  /** The six digits of `/^#?([a-f\d]{2})([a-f\d]{2})([a-f\d]{2})$/i`, if the text matches. */
  function HexDigitsOf(hex: string): (r: Option<string>)
    ensures r.Some? ==> |r.value| == 6 && forall i :: 0 <= i < 6 ==> IsHexDigit(r.value[i])
    ensures r.Some? ==> hex == r.value || hex == "#" + r.value
  {
    var digits := if |hex| == 7 && hex[0] == '#' then hex[1..] else hex;
    if |digits| == 6 && forall i :: 0 <= i < 6 ==> IsHexDigit(digits[i]) then
      assert |hex| == 7 && hex[0] == '#' ==> hex == "#" + digits;
      Some(digits)
    else None
  }

  /** The three channel values of a matching colour, each below 256. */
  function Channels(hex: string): (r: Option<(nat, nat, nat)>)
    ensures r.Some? <==> HexDigitsOf(hex).Some?
    ensures r.Some? ==> r.value.0 < 256 && r.value.1 < 256 && r.value.2 < 256
  {
    match HexDigitsOf(hex)
    case None => None
    case Some(d) =>
      Some((HexValue(d[0]) * 16 + HexValue(d[1]), HexValue(d[2]) * 16 + HexValue(d[3]),
            HexValue(d[4]) * 16 + HexValue(d[5])))
  }

  /** `hexToRgb`: "r, g, b" in decimal for a six-digit colour with an optional '#', else null. */
  function HexToRgb(hex: string): (r: Option<string>)
    ensures r.Some? <==> HexDigitsOf(hex).Some?
  {
    match Channels(hex)
    case None => None
    case Some((red, green, blue)) => Some(NatToString(red) + ", " + NatToString(green) + ", " + NatToString(blue))
  }

  /** The lower-case hex digit for `d`. */
  function HexDigit(d: nat): (c: char)
    requires d < 16
    ensures IsHexDigit(c) && HexValue(c) == d
  {
    if d < 10 then ('0' as int + d) as char else ('a' as int + d - 10) as char
  }

  /** `#rrggbb` for three channel values. */
  function RgbHex(red: nat, green: nat, blue: nat): (s: string)
    requires red < 256 && green < 256 && blue < 256
  {
    ['#', HexDigit(red / 16), HexDigit(red % 16), HexDigit(green / 16), HexDigit(green % 16),
     HexDigit(blue / 16), HexDigit(blue % 16)]
  }

  /** Every colour written as `#rrggbb` reads back as its channels. */
  lemma RgbHexRoundTrip(red: nat, green: nat, blue: nat)
    requires red < 256 && green < 256 && blue < 256
    ensures Channels(RgbHex(red, green, blue)) == Some((red, green, blue))
  {
    var s := RgbHex(red, green, blue);
    assert HexDigitsOf(s) == Some(s[1..]);
  }

  /** The '#' is optional: a colour reads the same with or without it. */
  lemma HashOptional(digits: string)
    requires |digits| == 6
    ensures HexToRgb("#" + digits) == HexToRgb(digits)
  {
    assert ("#" + digits)[1..] == digits;
  }

  // ---------------------------------------------------------------------------------------
  // Applying a configuration

  /** A template configuration; an absent field is "", which `||` treats like a missing one. */
  datatype TemplateConfig = TemplateConfig(primaryColor: string, secondaryColor: string, fontFamily: string)

  const DefaultPrimary: string := "#2563eb"
  const DefaultSecondary: string := "#64748b"

  /** The style properties `applyTemplateStyles` writes. */
  datatype StyleProperty = PrimaryRgbVar | PrimaryVar | SecondaryRgbVar | SecondaryVar | FontFamilyVar | FontFamily

  /** The CSS name of each property (`FontFamily` is the element's own `font-family`). */
  function PropertyName(p: StyleProperty): string {
    match p
    case PrimaryRgbVar => "--template-primary-rgb"
    case PrimaryVar => "--template-primary"
    case SecondaryRgbVar => "--template-secondary-rgb"
    case SecondaryVar => "--template-secondary"
    case FontFamilyVar => "--template-font-family"
    case FontFamily => "font-family"
  }

  /** The style after one colour's writes: its RGB triple and the colour itself, when the colour
      parses; nothing otherwise. */
  function ColourWrites(colour: string, rgbVar: StyleProperty, colourVar: StyleProperty): (r: map<StyleProperty, string>)
    requires rgbVar != colourVar
    ensures HexToRgb(colour).Some? ==> r == map[rgbVar := HexToRgb(colour).value, colourVar := colour]
    ensures HexToRgb(colour).None? ==> r == map[]
  {
    match HexToRgb(colour)
    case Some(rgb) => map[rgbVar := rgb, colourVar := colour]
    case None => map[]
  }

  /** `applyTemplateStyles`, as the properties it leaves set: nothing without an element; each
      colour (its default when not configured) with its RGB triple, only when it parses; the
      font only when given. */
  function ApplyTemplateStyles(hasElement: bool, config: TemplateConfig): (r: map<StyleProperty, string>)
    ensures !hasElement ==> r == map[]
    ensures FontFamily in r <==> hasElement && config.fontFamily != ""
    ensures FontFamily in r ==> FontFamilyVar in r && r[FontFamily] == config.fontFamily && r[FontFamilyVar] == config.fontFamily
  {
    if !hasElement then map[]
    else
      var primary := if config.primaryColor != "" then config.primaryColor else DefaultPrimary;
      var secondary := if config.secondaryColor != "" then config.secondaryColor else DefaultSecondary;
      ColourWrites(primary, PrimaryRgbVar, PrimaryVar)
      + ColourWrites(secondary, SecondaryRgbVar, SecondaryVar)
      + (if config.fontFamily != "" then map[FontFamilyVar := config.fontFamily, FontFamily := config.fontFamily] else map[])
  }

  /** Each colour is set exactly when the colour in use parses, and then to that colour. */
  lemma ColourSetIff(config: TemplateConfig)
    ensures var r := ApplyTemplateStyles(true, config);
            var primary := if config.primaryColor != "" then config.primaryColor else DefaultPrimary;
            (PrimaryVar in r <==> HexToRgb(primary).Some?)
            && (PrimaryVar in r ==> r[PrimaryVar] == primary && r[PrimaryRgbVar] == HexToRgb(primary).value)
  {
  }

  /** Unconfigured colours fall back to the defaults, which always parse. */
  lemma DefaultColoursApplied(config: TemplateConfig)
    requires config.primaryColor == "" && config.secondaryColor == ""
    ensures var r := ApplyTemplateStyles(true, config);
            PrimaryVar in r && r[PrimaryVar] == DefaultPrimary && r[PrimaryRgbVar] == "37, 99, 235"
            && SecondaryVar in r && r[SecondaryVar] == DefaultSecondary && r[SecondaryRgbVar] == "100, 116, 139"
  {
    DefaultPrimaryRgb();
    DefaultSecondaryRgb();
  }

  /** A '#' and six hex digits match, and the digits are what follows the '#'. */
  lemma SixDigits(hex: string, d: string)
    requires |d| == 6 && hex == "#" + d
    requires IsHexDigit(d[0]) && IsHexDigit(d[1]) && IsHexDigit(d[2]) && IsHexDigit(d[3])
             && IsHexDigit(d[4]) && IsHexDigit(d[5])
    ensures HexDigitsOf(hex) == Some(d)
  {
    assert hex[1..] == d;
    assert forall i :: 0 <= i < 6 ==> IsHexDigit(d[i]);
  }

  lemma DefaultPrimaryRgb()
    ensures HexToRgb(DefaultPrimary) == Some("37, 99, 235")
  {
    SixDigits("#2563eb", "2563eb");
    assert Channels(DefaultPrimary) == Some((37, 99, 235));
    assert HexToRgb(DefaultPrimary) == Some(NatToString(37) + ", " + NatToString(99) + ", " + NatToString(235));
    assert NatToString(37) == "37" && NatToString(99) == "99" && NatToString(235) == "235";
    assert "37" + ", " + "99" + ", " + "235" == "37, 99, 235";
  }

  lemma DefaultSecondaryRgb()
    ensures HexToRgb(DefaultSecondary) == Some("100, 116, 139")
  {
    SixDigits("#64748b", "64748b");
    assert Channels(DefaultSecondary) == Some((100, 116, 139));
    assert HexToRgb(DefaultSecondary) == Some(NatToString(100) + ", " + NatToString(116) + ", " + NatToString(139));
    assert NatToString(100) == "100" && NatToString(116) == "116" && NatToString(139) == "139";
    assert "100" + ", " + "116" + ", " + "139" == "100, 116, 139";
  }

  /** A configured colour that does not parse sets neither of its properties: the default is not
      used in its place. */
  lemma InvalidColourSetsNothing(config: TemplateConfig)
    requires config.primaryColor != "" && HexToRgb(config.primaryColor).None?
    ensures var r := ApplyTemplateStyles(true, config);
            PrimaryVar !in r && PrimaryRgbVar !in r
  {
  }

  // ---------------------------------------------------------------------------------------
  // Classes and colours per type

  datatype TemplateClasses = TemplateClasses(container: string, header: string, section: string, card: string)

  /** The classes of a template type. */
  function ClassesOf(t: TemplateType): (r: TemplateClasses)
    ensures r.header == r.container + "-header" && r.section == r.container + "-section"
            && r.card == r.container + "-card"
  {
    var base := "template-" + TypeName(t);
    TemplateClasses(base, base + "-header", base + "-section", base + "-card")
  }

  /** `getTemplateClasses`: the classes of the named type, modern's for any other name. */
  function GetTemplateClasses(name: string): (r: TemplateClasses)
    ensures ParseType(name).Some? ==> r.container == "template-" + name
    ensures ParseType(name).None? ==> r == ClassesOf(Modern)
  {
    ClassesOf(TypeOrModern(name))
  }

  /** Different template types never share a container class. */
  lemma ClassesDistinct(s: TemplateType, t: TemplateType)
    requires s != t
    ensures ClassesOf(s).container != ClassesOf(t).container
  {
  }

  datatype TemplateColors = TemplateColors(primary: string, secondary: string, background: string, text: string)

  /** The fixed scheme of each template type before configuration. */
  function DefaultColors(t: TemplateType): TemplateColors {
    match t
    case Classic => TemplateColors("#2563eb", "#64748b", "#ffffff", "#1f2937")
    case Modern => TemplateColors("#7c3aed", "#a78bfa", "#0f172a", "#f8fafc")
    case Minimalist => TemplateColors("#000000", "#6b7280", "#ffffff", "#000000")
    case Developer => TemplateColors("#10b981", "#6ee7b7", "#1e293b", "#f1f5f9")
    case Designer => TemplateColors("#f59e0b", "#fbbf24", "#ffffff", "#1f2937")
  }

  /** `getTemplateColors`: the named type's scheme (modern's for any other name), with the
      configured primary and secondary colours in place of its own. */
  function GetTemplateColors(name: string, config: TemplateConfig): (r: TemplateColors)
    ensures config.primaryColor != "" ==> r.primary == config.primaryColor
    ensures config.secondaryColor != "" ==> r.secondary == config.secondaryColor
    ensures config.primaryColor == "" ==> r.primary == DefaultColors(TypeOrModern(name)).primary
    ensures config.secondaryColor == "" ==> r.secondary == DefaultColors(TypeOrModern(name)).secondary
  {
    var d := DefaultColors(TypeOrModern(name));
    d.(primary := if config.primaryColor != "" then config.primaryColor else d.primary,
       secondary := if config.secondaryColor != "" then config.secondaryColor else d.secondary)
  }

  /** Background and text colours depend on the type alone, never on the configuration. */
  lemma BackgroundIgnoresConfig(name: string, a: TemplateConfig, b: TemplateConfig)
    ensures GetTemplateColors(name, a).background == GetTemplateColors(name, b).background
    ensures GetTemplateColors(name, a).text == GetTemplateColors(name, b).text
  {
  }
}
