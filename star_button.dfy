/**
 * One tappable star (StarButton.js): how a tap inside the star becomes
 * the rating it selects, which icon set draws the star, and whether the
 * star is drawn as a font glyph or as an image.
 */
module StarButton {
  import opened Wrappers

  /** The eleven icon fonts the widget can draw with by name. */
  datatype IconFont =
    | Entypo | EvilIcons | Feather | FontAwesome | Foundation | Ionicons
    | MaterialIcons | MaterialCommunityIcons | Octicons | Zocial | SimpleLineIcons

  /** The name under which each font is registered. */
  function FontName(f: IconFont): string
  {
    match f
    case Entypo => "Entypo"
    case EvilIcons => "EvilIcons"
    case Feather => "Feather"
    case FontAwesome => "FontAwesome"
    case Foundation => "Foundation"
    case Ionicons => "Ionicons"
    case MaterialIcons => "MaterialIcons"
    case MaterialCommunityIcons => "MaterialCommunityIcons"
    case Octicons => "Octicons"
    case Zocial => "Zocial"
    case SimpleLineIcons => "SimpleLineIcons"
  }

  /** The fixed table from icon-set name to font. */
  const IconSets: map<string, IconFont> := map[
    "Entypo" := Entypo,
    "EvilIcons" := EvilIcons,
    "Feather" := Feather,
    "FontAwesome" := FontAwesome,
    "Foundation" := Foundation,
    "Ionicons" := Ionicons,
    "MaterialIcons" := MaterialIcons,
    "MaterialCommunityIcons" := MaterialCommunityIcons,
    "Octicons" := Octicons,
    "Zocial" := Zocial,
    "SimpleLineIcons" := SimpleLineIcons
  ]

  /** An IcoMoon configuration object, opaque to the widget. */
  datatype IcoMoonConfig = IcoMoonConfig(id: nat)

  /** Where the glyphs of a star come from. */
  datatype IconSource =
    | Named(font: IconFont)            // one of the eleven built-in fonts
    | Custom(config: IcoMoonConfig)    // a font built from an IcoMoon configuration

  /** A star icon: a glyph name (string or number) or an image source object. */
  datatype IconName =
    | NameString(s: string)
    | NameNumber(n: int)
    | NameObject(uri: string)

  /** The props one star button receives from the rating row. */
  datatype StarButtonProps = StarButtonProps(
    activeOpacity: real,
    disabled: bool,
    halfStarEnabled: bool,
    icoMoonJson: Option<IcoMoonConfig>,
    iconSet: string,
    rating: real,
    reversed: bool,
    starColor: string,
    starIconName: IconName,
    starSize: real)

  /**
   * What the button draws inside itself. InvalidElement stands for a glyph
   * whose icon font is undefined: React rejects such an element and the
   * widget fails to render.
   */
  datatype IconElement =
    | Glyph(source: IconSource, name: IconName, size: real, color: string, scaleX: int)
    | Picture(picture: IconName, width: real, height: real, resizeMode: string, scaleX: int)
    | InvalidElement(name: IconName, scaleX: int)

  /** Reading a font's name back through the table gives the font, and the table holds nothing else. */
  lemma IconSetsRoundTrip(f: IconFont, name: string)
    ensures FontName(f) in IconSets && IconSets[FontName(f)] == f
    ensures name in IconSets ==> FontName(IconSets[name]) == name
  {
  }

  /**
   * The rating a press reports: the button's own rating, lowered by half a
   * star when half stars are enabled and the press lands in the left half.
   */
  function Selection(halfStarEnabled: bool, starSize: real, rating: real, locationX: real): (r: real)
    ensures r == rating || r == rating - 0.5
    ensures r == rating - 0.5 <==> halfStarEnabled && locationX < starSize / 2.0
  {
    rating + (if halfStarEnabled && locationX < starSize / 2.0 then -0.5 else 0.0)
  }

  /**
   * Handles a press at horizontal offset locationX inside the star; the
   * result is the value handed, once, to onStarButtonPress.
   */
  method OnButtonPress(props: StarButtonProps, locationX: real) returns (value: real)
    ensures value == Selection(props.halfStarEnabled, props.starSize, props.rating, locationX)
    ensures !props.halfStarEnabled ==> value == props.rating
    ensures props.halfStarEnabled && locationX < props.starSize / 2.0 ==> value == props.rating - 0.5
    ensures props.halfStarEnabled && locationX >= props.starSize / 2.0 ==> value == props.rating
  {
    var addition := 0.0;
    if props.halfStarEnabled {
      var isHalfSelected := locationX < props.starSize / 2.0;
      addition := if isHalfSelected then -0.5 else 0.0;
    }
    value := props.rating + addition;
  }

  /** A press on the star rated i + 1 selects a value between i + 0.5 and i + 1. */
  lemma SelectionRange(i: nat, halfStarEnabled: bool, starSize: real, locationX: real)
    ensures var r := Selection(halfStarEnabled, starSize, (i + 1) as real, locationX);
      i as real + 0.5 <= r <= (i + 1) as real
  {
  }

  /**
   * The icon font a star uses: the IcoMoon font when a configuration is
   * given, otherwise the named font, or nothing for an unknown name.
   */
  function IconSetFromProps(icoMoonJson: Option<IcoMoonConfig>, iconSet: string): (r: Option<IconSource>)
    ensures icoMoonJson.Some? ==> r == Some(Custom(icoMoonJson.value))
    ensures icoMoonJson.None? ==> (r.Some? <==> iconSet in IconSets)
    ensures icoMoonJson.None? && r.Some? ==> r.value.Named? && FontName(r.value.font) == iconSet
  {
    if icoMoonJson.Some? then Some(Custom(icoMoonJson.value))
    else if iconSet in IconSets then Some(Named(IconSets[iconSet]))
    else None
  }

  /** The horizontal scale of the star: mirrored when the row is reversed. */
  function ScaleX(reversed: bool): (r: int)
    ensures r == -1 <==> reversed
    ensures r == 1 <==> !reversed
  {
    if reversed then -1 else 1
  }

  /** Whether an icon name is drawn as a font glyph (strings and numbers) rather than an image. */
  predicate IsGlyphName(n: IconName)
  {
    n.NameString? || n.NameNumber?
  }

  /**
   * Draws the star: a glyph of the chosen font for a string or number icon
   * name, otherwise an image of starSize by starSize; either way mirrored
   * when reversed. A glyph name with no font (no IcoMoon configuration and
   * an unknown icon-set name) gives an invalid element.
   */
  function RenderIcon(props: StarButtonProps): (r: IconElement)
    ensures r.scaleX == -1 <==> props.reversed
    ensures r.Picture? <==> !IsGlyphName(props.starIconName)
    ensures r.InvalidElement? <==>
      IsGlyphName(props.starIconName) && IconSetFromProps(props.icoMoonJson, props.iconSet).None?
    ensures r.InvalidElement? ==> r.name == props.starIconName
    ensures r.Glyph? ==> Some(r.source) == IconSetFromProps(props.icoMoonJson, props.iconSet)
    ensures r.Glyph? ==> r.name == props.starIconName && r.size == props.starSize && r.color == props.starColor
    ensures r.Picture? ==> r.picture == props.starIconName && r.resizeMode == "contain"
    ensures r.Picture? ==> r.width == props.starSize && r.height == props.starSize
  {
    var icon := IconSetFromProps(props.icoMoonJson, props.iconSet);
    var scaleX := ScaleX(props.reversed);
    if IsGlyphName(props.starIconName) then
      if icon.Some? then Glyph(icon.value, props.starIconName, props.starSize, props.starColor, scaleX)
      else InvalidElement(props.starIconName, scaleX)
    else
      Picture(props.starIconName, props.starSize, props.starSize, "contain", scaleX)
  }
}
