/**
 * The layout geometry catalog of the signage preview: fourteen named
 * screen partitions, each an ordered list of zones with a Tailwind style
 * and a percentage size, plus the flex/grid container style of each layout
 * and the nested wrapper used by the asymmetric and complex families.
 *
 * Percentages are integer hundredths of a percent: 10000 is 100%,
 * 6667 is 66.67%, 5000 is 50% and 3333 is 33.33%.
 */
module LayoutConfigs {

  import opened Wrappers
  import opened Strings

  /** The fourteen layout identifiers. */
  datatype LayoutType =
    | FullScreen | VerticalSplit | HorizontalSplit
    | ThreeVertical | ThreeHorizontal
    | MainLeft | MainRight | MainTop | MainBottom
    | TwoTopOneBottom | OneTopTwoBottom | TwoLeftOneRight | OneLeftTwoRight
    | Grid2x2

  /** The classification tag every zone carries. */
  datatype PositionType = Fullscreen | SplitHorizontal | SplitVertical | Grid | Asymmetric | Complex

  /** Width and height in hundredths of a percent, the family tag, and the zone's place in its list. */
  datatype ZoneSize = ZoneSize(width: nat, height: nat, position: PositionType, index: nat, total: nat)

  datatype ZoneConfig = ZoneConfig(id: string, style: string, size: ZoneSize)

  /** The direction in which a flex container lays out its children. */
  datatype Axis = Row | Column

  /** Result of the wrapper lookup: `{needsWrapper: false}` or the two nested container styles. */
  datatype WrapperStyles = Unwrapped | Wrapped(mainContainer: string, secondaryContainer: string) {
    predicate NeedsWrapper() { Wrapped? }
  }

  const FullExtent: nat := 10000

  // ---------------------------------------------------------------- identifiers

  /** The identifier string of a layout. */
  function LayoutName(t: LayoutType): string {
    match t
    case FullScreen => "full-screen"
    case VerticalSplit => "vertical-split"
    case HorizontalSplit => "horizontal-split"
    case ThreeVertical => "three-vertical"
    case ThreeHorizontal => "three-horizontal"
    case MainLeft => "main-left"
    case MainRight => "main-right"
    case MainTop => "main-top"
    case MainBottom => "main-bottom"
    case TwoTopOneBottom => "two-top-one-bottom"
    case OneTopTwoBottom => "one-top-two-bottom"
    case TwoLeftOneRight => "two-left-one-right"
    case OneLeftTwoRight => "one-left-two-right"
    case Grid2x2 => "grid-2x2"
  }

  /**
   * The key lookup `table[layoutType]` over the fourteen listed keys:
   * a string names a layout exactly when it is that layout's identifier.
   */
  function ParseLayoutType(s: string): (r: Option<LayoutType>)
    ensures r.Some? ==> LayoutName(r.value) == s
    ensures r.None? <==> forall t: LayoutType :: LayoutName(t) != s
  {
    if s == "full-screen" then Some(FullScreen)
    else if s == "vertical-split" then Some(VerticalSplit)
    else if s == "horizontal-split" then Some(HorizontalSplit)
    else if s == "three-vertical" then Some(ThreeVertical)
    else if s == "three-horizontal" then Some(ThreeHorizontal)
    else if s == "main-left" then Some(MainLeft)
    else if s == "main-right" then Some(MainRight)
    else if s == "main-top" then Some(MainTop)
    else if s == "main-bottom" then Some(MainBottom)
    else if s == "two-top-one-bottom" then Some(TwoTopOneBottom)
    else if s == "one-top-two-bottom" then Some(OneTopTwoBottom)
    else if s == "two-left-one-right" then Some(TwoLeftOneRight)
    else if s == "one-left-two-right" then Some(OneLeftTwoRight)
    else if s == "grid-2x2" then Some(Grid2x2)
    else None
  }

  /** Every layout's identifier parses back to that layout. */
  lemma ParseLayoutName(t: LayoutType)
    ensures ParseLayoutType(LayoutName(t)) == Some(t)
  {
  }

  // ---------------------------------------------------------------- reference definitions

  /** The family tag a layout's zones should carry, read off its name. */
  function Family(t: LayoutType): PositionType {
    match t
    case FullScreen => Fullscreen
    case VerticalSplit | ThreeVertical => SplitVertical
    case HorizontalSplit | ThreeHorizontal => SplitHorizontal
    case MainLeft | MainRight | MainTop | MainBottom => Asymmetric
    case TwoTopOneBottom | OneTopTwoBottom | TwoLeftOneRight | OneLeftTwoRight => Complex
    case Grid2x2 => Grid
  }

  /**
   * The zone count of each layout, as its name and family imply: one for
   * full-screen, two for the splits, four for the 2x2 grid, three for the rest.
   */
  function ZoneCount(t: LayoutType): nat {
    match t
    case FullScreen => 1
    case VerticalSplit | HorizontalSplit => 2
    case Grid2x2 => 4
    case _ => 3
  }

  /** The Tailwind fraction naming a percentage: `full`, `1/2`, `1/3`, `2/3`. */
  function FractionName(p: nat): Option<string> {
    if p == 10000 then Some("full")
    else if p == 5000 then Some("1/2")
    else if p == 3333 then Some("1/3")
    else if p == 6667 then Some("2/3")
    else None
  }

  /** The percentage a Tailwind fraction stands for. */
  function FractionValue(name: string): Option<nat> {
    if name == "full" then Some(10000)
    else if name == "1/2" then Some(5000)
    else if name == "1/3" then Some(3333)
    else if name == "2/3" then Some(6667)
    else None
  }

  /** The fraction names and the percentages correspond one to one. */
  lemma FractionRoundTrip(p: nat, name: string)
    ensures FractionName(p) == Some(name) <==> FractionValue(name) == Some(p)
  {
  }

  /** `style` is `prefix` followed by the width and height classes of the given size. */
  predicate StyleIs(style: string, prefix: string, width: nat, height: nat) {
    && FractionName(width).Some?
    && FractionName(height).Some?
    && style == prefix + "w-" + FractionName(width).value + " h-" + FractionName(height).value
  }

  /** The identifier of the zone at list position `i`. */
  function ZoneId(i: nat): string {
    "zone-" + DecimalString(i + 1)
  }

  /** Zone identifiers are unique: two positions with the same id are the same position. */
  lemma ZoneIdInjective(i: nat, j: nat)
    requires ZoneId(i) == ZoneId(j)
    ensures i == j
  {
    assert ZoneId(i)[5..] == DecimalString(i + 1);
    assert ZoneId(j)[5..] == DecimalString(j + 1);
    DecimalRoundTrip(i + 1);
    DecimalRoundTrip(j + 1);
  }

  /**
   * The zone at position `i` of a list of `n` zones of family `position`:
   * numbered from one in its id and from zero in its index, sized within
   * the canvas, with a style whose fractions are its size.
   */
  predicate ZoneFits(z: ZoneConfig, i: nat, n: nat, position: PositionType) {
    && z.id == ZoneId(i)
    && z.size.index == i
    && z.size.total == n
    && z.size.position == position
    && 0 < z.size.width <= FullExtent
    && 0 < z.size.height <= FullExtent
    && StyleIs(z.style, "", z.size.width, z.size.height)
  }

  /**
   * The flex direction the zones of a layout call for: a row when some zone
   * spans the full height but not the full width, a column when some zone
   * spans the full width but not the full height, none otherwise.
   */
  function LayoutAxis(zs: seq<ZoneConfig>): Option<Axis> {
    if exists i | 0 <= i < |zs| :: zs[i].size.height == FullExtent && zs[i].size.width < FullExtent then Some(Row)
    else if exists i | 0 <= i < |zs| :: zs[i].size.width == FullExtent && zs[i].size.height < FullExtent then Some(Column)
    else None
  }

  /** The Tailwind flex-direction class of an axis, with its trailing blank. */
  function DirectionClass(a: Option<Axis>): string {
    match a
    case Some(Row) => "flex-row "
    case Some(Column) => "flex-col "
    case None => ""
  }

  function Across(a: Axis): Axis {
    match a
    case Row => Column
    case Column => Row
  }

  /** A zone that spans neither the full width nor the full height. */
  predicate IsSecondary(z: ZoneConfig) {
    z.size.width < FullExtent && z.size.height < FullExtent
  }

  /** The secondary zones of a list, in order. */
  function SecondaryZones(zs: seq<ZoneConfig>): seq<ZoneConfig> {
    if zs == [] then []
    else (if IsSecondary(zs[0]) then [zs[0]] else []) + SecondaryZones(zs[1..])
  }

  /** `SecondaryZones` of a three-zone list, zone by zone. */
  lemma SecondaryZonesOfThree(zs: seq<ZoneConfig>)
    requires |zs| == 3
    ensures SecondaryZones(zs) ==
      (if IsSecondary(zs[0]) then [zs[0]] else []) +
      (if IsSecondary(zs[1]) then [zs[1]] else []) +
      (if IsSecondary(zs[2]) then [zs[2]] else [])
  {
    assert zs[1..][1..] == zs[2..];
    assert zs[2..][1..] == [];
    assert SecondaryZones(zs[2..]) == (if IsSecondary(zs[2]) then [zs[2]] else []);
    assert SecondaryZones(zs[1..]) == (if IsSecondary(zs[1]) then [zs[1]] else []) + SecondaryZones(zs[2..]);
  }

  /**
   * `style` is a flex container along `axis` whose box is exactly the two
   * zones of `sec` placed side by side (row) or one above the other (column).
   */
  predicate EnclosesPair(style: string, axis: Axis, sec: seq<ZoneConfig>) {
    && |sec| == 2
    && match axis
       case Row =>
         && sec[0].size.height == sec[1].size.height
         && StyleIs(style, "flex flex-row ", sec[0].size.width + sec[1].size.width, sec[0].size.height)
       case Column =>
         && sec[0].size.width == sec[1].size.width
         && StyleIs(style, "flex flex-col ", sec[0].size.width, sec[0].size.height + sec[1].size.height)
  }

  // ---------------------------------------------------------------- zones

  /** The zone table: the list of zones of each layout. */
  function Zones(t: LayoutType): (r: seq<ZoneConfig>)
    ensures |r| == ZoneCount(t)
  {
    match t
    case FullScreen => [
      ZoneConfig("zone-1", "w-full h-full", ZoneSize(10000, 10000, Fullscreen, 0, 1))
    ]
    case VerticalSplit => [
      ZoneConfig("zone-1", "w-1/2 h-full", ZoneSize(5000, 10000, SplitVertical, 0, 2)),
      ZoneConfig("zone-2", "w-1/2 h-full", ZoneSize(5000, 10000, SplitVertical, 1, 2))
    ]
    case HorizontalSplit => [
      ZoneConfig("zone-1", "w-full h-1/2", ZoneSize(10000, 5000, SplitHorizontal, 0, 2)),
      ZoneConfig("zone-2", "w-full h-1/2", ZoneSize(10000, 5000, SplitHorizontal, 1, 2))
    ]
    case ThreeVertical => [
      ZoneConfig("zone-1", "w-1/3 h-full", ZoneSize(3333, 10000, SplitVertical, 0, 3)),
      ZoneConfig("zone-2", "w-1/3 h-full", ZoneSize(3333, 10000, SplitVertical, 1, 3)),
      ZoneConfig("zone-3", "w-1/3 h-full", ZoneSize(3333, 10000, SplitVertical, 2, 3))
    ]
    case ThreeHorizontal => [
      ZoneConfig("zone-1", "w-full h-1/3", ZoneSize(10000, 3333, SplitHorizontal, 0, 3)),
      ZoneConfig("zone-2", "w-full h-1/3", ZoneSize(10000, 3333, SplitHorizontal, 1, 3)),
      ZoneConfig("zone-3", "w-full h-1/3", ZoneSize(10000, 3333, SplitHorizontal, 2, 3))
    ]
    case MainLeft => [
      ZoneConfig("zone-1", "w-2/3 h-full", ZoneSize(6667, 10000, Asymmetric, 0, 3)),
      ZoneConfig("zone-2", "w-1/3 h-1/2", ZoneSize(3333, 5000, Asymmetric, 1, 3)),
      ZoneConfig("zone-3", "w-1/3 h-1/2", ZoneSize(3333, 5000, Asymmetric, 2, 3))
    ]
    case MainRight => [
      ZoneConfig("zone-1", "w-1/3 h-1/2", ZoneSize(3333, 5000, Asymmetric, 0, 3)),
      ZoneConfig("zone-2", "w-1/3 h-1/2", ZoneSize(3333, 5000, Asymmetric, 1, 3)),
      ZoneConfig("zone-3", "w-2/3 h-full", ZoneSize(6667, 10000, Asymmetric, 2, 3))
    ]
    case MainTop => [
      ZoneConfig("zone-1", "w-full h-2/3", ZoneSize(10000, 6667, Asymmetric, 0, 3)),
      ZoneConfig("zone-2", "w-1/2 h-1/3", ZoneSize(5000, 3333, Asymmetric, 1, 3)),
      ZoneConfig("zone-3", "w-1/2 h-1/3", ZoneSize(5000, 3333, Asymmetric, 2, 3))
    ]
    case MainBottom => [
      ZoneConfig("zone-1", "w-1/2 h-1/3", ZoneSize(5000, 3333, Asymmetric, 0, 3)),
      ZoneConfig("zone-2", "w-1/2 h-1/3", ZoneSize(5000, 3333, Asymmetric, 1, 3)),
      ZoneConfig("zone-3", "w-full h-2/3", ZoneSize(10000, 6667, Asymmetric, 2, 3))
    ]
    case TwoTopOneBottom => [
      ZoneConfig("zone-1", "w-1/2 h-1/2", ZoneSize(5000, 5000, Complex, 0, 3)),
      ZoneConfig("zone-2", "w-1/2 h-1/2", ZoneSize(5000, 5000, Complex, 1, 3)),
      ZoneConfig("zone-3", "w-full h-1/2", ZoneSize(10000, 5000, Complex, 2, 3))
    ]
    case OneTopTwoBottom => [
      ZoneConfig("zone-1", "w-full h-1/2", ZoneSize(10000, 5000, Complex, 0, 3)),
      ZoneConfig("zone-2", "w-1/2 h-1/2", ZoneSize(5000, 5000, Complex, 1, 3)),
      ZoneConfig("zone-3", "w-1/2 h-1/2", ZoneSize(5000, 5000, Complex, 2, 3))
    ]
    case TwoLeftOneRight => [
      ZoneConfig("zone-1", "w-1/2 h-1/2", ZoneSize(5000, 5000, Complex, 0, 3)),
      ZoneConfig("zone-2", "w-1/2 h-1/2", ZoneSize(5000, 5000, Complex, 1, 3)),
      ZoneConfig("zone-3", "w-1/2 h-full", ZoneSize(5000, 10000, Complex, 2, 3))
    ]
    case OneLeftTwoRight => [
      ZoneConfig("zone-1", "w-1/2 h-full", ZoneSize(5000, 10000, Complex, 0, 3)),
      ZoneConfig("zone-2", "w-1/2 h-1/2", ZoneSize(5000, 5000, Complex, 1, 3)),
      ZoneConfig("zone-3", "w-1/2 h-1/2", ZoneSize(5000, 5000, Complex, 2, 3))
    ]
    case Grid2x2 => [
      ZoneConfig("zone-1", "w-1/2 h-1/2", ZoneSize(5000, 5000, Grid, 0, 4)),
      ZoneConfig("zone-2", "w-1/2 h-1/2", ZoneSize(5000, 5000, Grid, 1, 4)),
      ZoneConfig("zone-3", "w-1/2 h-1/2", ZoneSize(5000, 5000, Grid, 2, 4)),
      ZoneConfig("zone-4", "w-1/2 h-1/2", ZoneSize(5000, 5000, Grid, 3, 4))
    ]
  }

  /** The identifiers of the first four zones. */
  lemma ZoneIds()
    ensures ZoneId(0) == "zone-1" && ZoneId(1) == "zone-2" && ZoneId(2) == "zone-3" && ZoneId(3) == "zone-4"
  {
  }

  /** The style strings of the zone sizes that occur in the catalog. */
  lemma ZoneStyles()
    ensures StyleIs("w-full h-full", "", 10000, 10000)
    ensures StyleIs("w-1/2 h-full", "", 5000, 10000)
    ensures StyleIs("w-full h-1/2", "", 10000, 5000)
    ensures StyleIs("w-1/3 h-full", "", 3333, 10000)
  {
  }

  /** The style strings of the remaining zone sizes of the catalog. */
  lemma MoreZoneStyles()
    ensures StyleIs("w-full h-1/3", "", 10000, 3333)
    ensures StyleIs("w-2/3 h-full", "", 6667, 10000)
    ensures StyleIs("w-full h-2/3", "", 10000, 6667)
    ensures StyleIs("w-1/3 h-1/2", "", 3333, 5000)
    ensures StyleIs("w-1/2 h-1/3", "", 5000, 3333)
    ensures StyleIs("w-1/2 h-1/2", "", 5000, 5000)
  {
  }

  /**
   * Every layout's zone list is numbered, sized and styled consistently:
   * the zone at position `i` has index `i`, id `zone-<i+1>`, the list length
   * as total, the layout's family tag, and style fractions equal to its size.
   */
  lemma {:induction false} ZonesFit(t: LayoutType)
    ensures forall i | 0 <= i < |Zones(t)| :: ZoneFits(Zones(t)[i], i, |Zones(t)|, Family(t))
  {
    ZoneIds();
    ZoneStyles();
    MoreZoneStyles();
    var zs := Zones(t);
    match t
    case FullScreen =>
      assert ZoneFits(zs[0], 0, 1, Fullscreen);
    case VerticalSplit =>
      assert ZoneFits(zs[0], 0, 2, SplitVertical);
      assert ZoneFits(zs[1], 1, 2, SplitVertical);
    case HorizontalSplit =>
      assert ZoneFits(zs[0], 0, 2, SplitHorizontal);
      assert ZoneFits(zs[1], 1, 2, SplitHorizontal);
    case ThreeVertical =>
      assert ZoneFits(zs[0], 0, 3, SplitVertical);
      assert ZoneFits(zs[1], 1, 3, SplitVertical);
      assert ZoneFits(zs[2], 2, 3, SplitVertical);
    case ThreeHorizontal =>
      assert ZoneFits(zs[0], 0, 3, SplitHorizontal);
      assert ZoneFits(zs[1], 1, 3, SplitHorizontal);
      assert ZoneFits(zs[2], 2, 3, SplitHorizontal);
    case MainLeft =>
      assert ZoneFits(zs[0], 0, 3, Asymmetric);
      assert ZoneFits(zs[1], 1, 3, Asymmetric);
      assert ZoneFits(zs[2], 2, 3, Asymmetric);
    case MainRight =>
      assert ZoneFits(zs[0], 0, 3, Asymmetric);
      assert ZoneFits(zs[1], 1, 3, Asymmetric);
      assert ZoneFits(zs[2], 2, 3, Asymmetric);
    case MainTop =>
      assert ZoneFits(zs[0], 0, 3, Asymmetric);
      assert ZoneFits(zs[1], 1, 3, Asymmetric);
      assert ZoneFits(zs[2], 2, 3, Asymmetric);
    case MainBottom =>
      assert ZoneFits(zs[0], 0, 3, Asymmetric);
      assert ZoneFits(zs[1], 1, 3, Asymmetric);
      assert ZoneFits(zs[2], 2, 3, Asymmetric);
    case TwoTopOneBottom =>
      assert ZoneFits(zs[0], 0, 3, Complex);
      assert ZoneFits(zs[1], 1, 3, Complex);
      assert ZoneFits(zs[2], 2, 3, Complex);
    case OneTopTwoBottom =>
      assert ZoneFits(zs[0], 0, 3, Complex);
      assert ZoneFits(zs[1], 1, 3, Complex);
      assert ZoneFits(zs[2], 2, 3, Complex);
    case TwoLeftOneRight =>
      assert ZoneFits(zs[0], 0, 3, Complex);
      assert ZoneFits(zs[1], 1, 3, Complex);
      assert ZoneFits(zs[2], 2, 3, Complex);
    case OneLeftTwoRight =>
      assert ZoneFits(zs[0], 0, 3, Complex);
      assert ZoneFits(zs[1], 1, 3, Complex);
      assert ZoneFits(zs[2], 2, 3, Complex);
    case Grid2x2 =>
      assert ZoneFits(zs[0], 0, 4, Grid);
      assert ZoneFits(zs[1], 1, 4, Grid);
      assert ZoneFits(zs[2], 2, 4, Grid);
      assert ZoneFits(zs[3], 3, 4, Grid);
  }

  /** Within each layout no two zones share an id. */
  lemma ZoneIdsDistinct(t: LayoutType)
    ensures forall i, j | 0 <= i < j < |Zones(t)| :: Zones(t)[i].id != Zones(t)[j].id
  {
    ZonesFit(t);
    forall i, j | 0 <= i < j < |Zones(t)|
      ensures Zones(t)[i].id != Zones(t)[j].id
    {
      if Zones(t)[i].id == Zones(t)[j].id {
        ZoneIdInjective(i, j);
      }
    }
  }

  /**
   * `getLayoutZones`: the zones of the named layout; any other identifier
   * gets the single full-screen zone.
   */
  function GetLayoutZones(layoutType: string): (r: seq<ZoneConfig>)
    ensures ParseLayoutType(layoutType).Some? ==> r == Zones(ParseLayoutType(layoutType).value)
    ensures ParseLayoutType(layoutType).None? ==>
      r == Zones(FullScreen) == [ZoneConfig("zone-1", "w-full h-full", ZoneSize(10000, 10000, Fullscreen, 0, 1))]
    ensures |r| > 0 && forall i | 0 <= i < |r| :: ZoneFits(r[i], i, |r|, r[0].size.position)
  {
    var t := ParseLayoutType(layoutType).GetOr(FullScreen);
    ZonesFit(t);
    Zones(t)
  }

  // ---------------------------------------------------------------- container style

  /** The container style table. */
  function ContainerStyle(t: LayoutType): string {
    match t
    case FullScreen => "flex w-full h-full"
    case VerticalSplit => "flex flex-row w-full h-full"
    case HorizontalSplit => "flex flex-col w-full h-full"
    case ThreeVertical => "flex flex-row w-full h-full"
    case ThreeHorizontal => "flex flex-col w-full h-full"
    case MainLeft => "flex flex-row w-full h-full"
    case MainRight => "flex flex-row w-full h-full"
    case MainTop => "flex flex-col w-full h-full"
    case MainBottom => "flex flex-col w-full h-full"
    case TwoTopOneBottom => "flex flex-col w-full h-full"
    case OneTopTwoBottom => "flex flex-col w-full h-full"
    case TwoLeftOneRight => "flex flex-row w-full h-full"
    case OneLeftTwoRight => "flex flex-row w-full h-full"
    case Grid2x2 => "grid grid-cols-2 grid-rows-2 w-full h-full"
  }

  /** Only the 2x2 grid gets a grid container; every other layout a flex container. */
  lemma OnlyGridIsGrid(t: LayoutType)
    ensures StartsWith(ContainerStyle(t), "grid ") <==> t == Grid2x2
    ensures StartsWith(ContainerStyle(t), "flex ") <==> t != Grid2x2
  {
    var r := ContainerStyle(t);
    if t == Grid2x2 {
      StartsWithChars(r, "grid ");
      NotStartsWithFirstChar(r, "flex ");
    } else {
      StartsWithChars(r, "flex ");
      NotStartsWithFirstChar(r, "grid ");
    }
  }

  /** The three flex container styles, written as direction plus full size. */
  lemma FlexContainerStrings()
    ensures "flex " + DirectionClass(None) + "w-full h-full" == "flex w-full h-full"
    ensures "flex " + DirectionClass(Some(Row)) + "w-full h-full" == "flex flex-row w-full h-full"
    ensures "flex " + DirectionClass(Some(Column)) + "w-full h-full" == "flex flex-col w-full h-full"
  {
    assert "flex " + "" + "w-full h-full" == "flex w-full h-full";
    assert "flex " + "flex-row " + "w-full h-full" == "flex flex-row w-full h-full";
    assert "flex " + "flex-col " + "w-full h-full" == "flex flex-col w-full h-full";
  }

  /** The four secondary container styles, as enclosing sizes. */
  lemma SecondaryContainerStrings()
    ensures StyleIs("flex flex-col w-1/3 h-full", "flex flex-col ", 3333, 10000)
    ensures StyleIs("flex flex-row w-full h-1/3", "flex flex-row ", 10000, 3333)
    ensures StyleIs("flex flex-row w-full h-1/2", "flex flex-row ", 10000, 5000)
    ensures StyleIs("flex flex-col w-1/2 h-full", "flex flex-col ", 5000, 10000)
  {
  }

  /**
   * The flex direction of every non-grid container is the one its zones
   * call for: `flex-row` when a zone fills the height, `flex-col` when a zone
   * fills the width, no direction for the single full-screen zone.
   */
  lemma {:induction false} ContainerDirectionFollowsZones(t: LayoutType)
    requires t != Grid2x2
    ensures ContainerStyle(t) == "flex " + DirectionClass(LayoutAxis(Zones(t))) + "w-full h-full"
  {
    var zs := Zones(t);
    FlexContainerStrings();
    match t
    case FullScreen =>
    case VerticalSplit | ThreeVertical | MainLeft | OneLeftTwoRight =>
      assert zs[0].size.height == FullExtent && zs[0].size.width < FullExtent;
    case MainRight | TwoLeftOneRight =>
      assert zs[2].size.height == FullExtent && zs[2].size.width < FullExtent;
    case HorizontalSplit | ThreeHorizontal | MainTop | OneTopTwoBottom =>
      assert zs[0].size.width == FullExtent && zs[0].size.height < FullExtent;
    case MainBottom | TwoTopOneBottom =>
      assert zs[2].size.width == FullExtent && zs[2].size.height < FullExtent;
  }

  /**
   * `getLayoutContainerStyle`: the named layout's container style; any other
   * identifier gets the full-screen style. Only the 2x2 grid is a grid.
   */
  function GetLayoutContainerStyle(layoutType: string): (r: string)
    ensures ParseLayoutType(layoutType).Some? ==> r == ContainerStyle(ParseLayoutType(layoutType).value)
    ensures ParseLayoutType(layoutType).None? ==> r == "flex w-full h-full" == ContainerStyle(FullScreen)
    ensures StartsWith(r, "grid ") <==> ParseLayoutType(layoutType) == Some(Grid2x2)
    ensures StartsWith(r, "flex ") <==> ParseLayoutType(layoutType) != Some(Grid2x2)
  {
    OnlyGridIsGrid(ParseLayoutType(layoutType).GetOr(FullScreen));
    match ParseLayoutType(layoutType)
    case Some(t) => ContainerStyle(t)
    case None => "flex w-full h-full"
  }

  // ---------------------------------------------------------------- wrapper styles

  /** The wrapper table: nested containers for the asymmetric and complex layouts. */
  function WrapperStylesFor(t: LayoutType): (r: WrapperStyles)
    ensures r.NeedsWrapper() <==> Family(t) in {Asymmetric, Complex}
    ensures r.NeedsWrapper() ==> r.mainContainer == ContainerStyle(t)
  {
    match t
    case MainLeft => Wrapped("flex flex-row w-full h-full", "flex flex-col w-1/3 h-full")
    case MainRight => Wrapped("flex flex-row w-full h-full", "flex flex-col w-1/3 h-full")
    case MainTop => Wrapped("flex flex-col w-full h-full", "flex flex-row w-full h-1/3")
    case MainBottom => Wrapped("flex flex-col w-full h-full", "flex flex-row w-full h-1/3")
    case TwoTopOneBottom => Wrapped("flex flex-col w-full h-full", "flex flex-row w-full h-1/2")
    case OneTopTwoBottom => Wrapped("flex flex-col w-full h-full", "flex flex-row w-full h-1/2")
    case TwoLeftOneRight => Wrapped("flex flex-row w-full h-full", "flex flex-col w-1/2 h-full")
    case OneLeftTwoRight => Wrapped("flex flex-row w-full h-full", "flex flex-col w-1/2 h-full")
    case _ => Unwrapped
  }

  /**
   * `getLayoutWrapperStyles`: the named layout's wrapper; every other layout
   * and every unknown identifier gets `{needsWrapper: false}`.
   */
  function GetLayoutWrapperStyles(layoutType: string): (r: WrapperStyles)
    ensures ParseLayoutType(layoutType).Some? ==> r == WrapperStylesFor(ParseLayoutType(layoutType).value)
    ensures ParseLayoutType(layoutType).None? ==> r == Unwrapped
    ensures r.NeedsWrapper() <==>
      ParseLayoutType(layoutType).Some? && Family(ParseLayoutType(layoutType).value) in {Asymmetric, Complex}
    ensures r.NeedsWrapper() ==> r.mainContainer == GetLayoutContainerStyle(layoutType)
  {
    match ParseLayoutType(layoutType)
    case Some(t) => WrapperStylesFor(t)
    case None => Unwrapped
  }

  /**
   * In every wrapped layout the main container and the secondary container
   * run across each other, and the secondary container's box is exactly the
   * two zones that span neither full extent.
   */
  lemma {:induction false} SecondaryContainerEnclosesZones(t: LayoutType)
    requires WrapperStylesFor(t).NeedsWrapper()
    ensures LayoutAxis(Zones(t)).Some?
    ensures EnclosesPair(WrapperStylesFor(t).secondaryContainer, Across(LayoutAxis(Zones(t)).value),
                         SecondaryZones(Zones(t)))
  {
    var zs := Zones(t);
    SecondaryZonesOfThree(zs);
    SecondaryContainerStrings();
    match t
    case MainLeft =>
      assert zs[0].size.height == FullExtent && zs[0].size.width < FullExtent;
    case MainRight =>
      assert zs[2].size.height == FullExtent && zs[2].size.width < FullExtent;
    case MainTop =>
      assert zs[0].size.width == FullExtent && zs[0].size.height < FullExtent;
    case MainBottom =>
      assert zs[2].size.width == FullExtent && zs[2].size.height < FullExtent;
    case TwoTopOneBottom =>
      assert zs[2].size.width == FullExtent && zs[2].size.height < FullExtent;
    case OneTopTwoBottom =>
      assert zs[0].size.width == FullExtent && zs[0].size.height < FullExtent;
    case TwoLeftOneRight =>
      assert zs[2].size.height == FullExtent && zs[2].size.width < FullExtent;
    case OneLeftTwoRight =>
      assert zs[0].size.height == FullExtent && zs[0].size.width < FullExtent;
  }
}
