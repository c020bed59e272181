# Layout and font catalogs of the video-zone preview

This project models two pure components of a digital-signage preview.

- **Layout geometry catalog** (`LayoutConfigs`). There are fourteen named screen
  partitions. Each one maps to an ordered list of zones. A zone has an id
  (`zone-1`, `zone-2`, …), a Tailwind style such as `w-1/3 h-full`, and a
  size record: width, height, position tag, index and total.
  - Two sibling tables give each layout's flex or grid container style and,
    for the asymmetric and complex families, the nested wrapper containers.
  - Each table has its own default for an identifier it does not list.
  - Percentages are integer hundredths of a percent: 10000, 6667, 5000, 3333.
- **Font catalog** (`FontManager`). There are three constant tables: Android
  TV fonts (15), desktop system fonts (8) and CSS keywords (2).
  - They come with accessors, a lookup by value, and the compatibility test.
  - The CSS `font-family` fallback resolver is a first-match-wins chain of
    exact and case-sensitive substring tests.
- **Helper modules.**
  - `Strings` models JavaScript's `includes` as `Contains` and renders
    decimal numbers for zone ids.
  - `Wrappers` holds `Option`.

JavaScript's `table[key] || default` lookups are made explicit.
`ParseLayoutType` turns a string into `Option<LayoutType>`. Each accessor then
takes either the listed entry or its default. The resolver is modelled as:

- `AndroidRuleOf`: which branch of the chain fires.
- `AndroidFamily`: the string that branch produces.
- `SystemFamily`: the `system` branch.

The lemmas then prove the outputs value by value, and which branches cannot fire.

## Model

| member | source | states |
|---|---|---|
| LayoutConfigs.ParseLayoutType | src/types/index.js:2-5 | a string denotes a layout exactly when it is that layout's identifier; every other string denotes none |
| LayoutConfigs.ParseLayoutName | src/types/index.js:2-5 | every layout identifier is recognised as its own layout |
| LayoutConfigs.FractionRoundTrip | src/services/layoutConfigs.js:86-90 | the Tailwind fractions `full`, `1/2`, `1/3`, `2/3` and the percentages 100, 50, 33.33, 66.67 correspond one to one |
| LayoutConfigs.Zones | src/services/layoutConfigs.js:16-490 | full-screen has 1 zone, the two splits 2, the three-zone, asymmetric and complex layouts 3, the 2x2 grid 4 |
| LayoutConfigs.ZonesFit | src/services/layoutConfigs.js:18-490 | in every layout, the zone at position i has index i, id `zone-<i+1>`, total equal to the list length and the layout family's position tag; its width and height lie in (0, 100%]; its style's fractions are its width and height |
| LayoutConfigs.GetLayoutZones | src/services/layoutConfigs.js:15-494 | a listed identifier gets its layout's zones; any other string gets exactly the single full-screen zone; the result is never empty and its zones are numbered, sized and tagged consistently |
| LayoutConfigs.OnlyGridIsGrid | src/services/layoutConfigs.js:502-517 | a container style starts with `grid` exactly for the 2x2 grid and with `flex` for every other layout |
| LayoutConfigs.ContainerDirectionFollowsZones | src/services/layoutConfigs.js:502-516 | every flex container is `flex-row` when one of its zones fills the height, `flex-col` when one fills the width, and has no direction for the single full-screen zone |
| LayoutConfigs.GetLayoutContainerStyle | src/services/layoutConfigs.js:501-520 | a listed identifier gets its layout's style; any other string gets `flex w-full h-full`, the full-screen entry; the result is a grid style exactly for `grid-2x2` |
| LayoutConfigs.WrapperStylesFor | src/services/layoutConfigs.js:528-569 | a layout has a wrapper exactly when its zones are tagged asymmetric or complex, and the wrapper's main container is the layout's container style |
| LayoutConfigs.GetLayoutWrapperStyles | src/services/layoutConfigs.js:527-573 | a listed identifier gets its layout's wrapper entry, main and secondary container included, and any other string `{needsWrapper: false}`; `needsWrapper` holds exactly for the eight asymmetric and complex identifiers; the main container equals `getLayoutContainerStyle` of the same identifier |
| LayoutConfigs.SecondaryContainerEnclosesZones | src/services/layoutConfigs.js:530-569 | in every wrapped layout the secondary container runs across the main container, and its fractions are the box of the two zones that fill neither the width nor the height |
| Strings.ContainsScan | src/services/fontManager.js:118 | `Contains` agrees with a left-to-right scan: the pattern is a prefix, or it occurs after the first character |
| LayoutConfigs.ZoneIdInjective | src/services/layoutConfigs.js:20 | two list positions with the same zone id are the same position |
| LayoutConfigs.ZoneIdsDistinct | src/services/layoutConfigs.js:18-490 | within every layout no two zones share an id |
| Strings.DecimalRoundTrip | src/services/layoutConfigs.js:20 | the number written in a zone id reads back as that number |
| FontManager.AndroidFonts | src/services/fontManager.js:7-30 | the Android table has 15 entries, all of category `android` |
| FontManager.SystemFonts | src/services/fontManager.js:33-42 | the system table has 8 entries, all of category `system` |
| FontManager.WebFonts | src/services/fontManager.js:45-48 | the web table has 2 entries, both of category `web` |
| FontManager.AndroidValuesDistinct | src/services/fontManager.js:7-30 | no two Android entries share a value |
| FontManager.AndroidSystemDisjoint | src/services/fontManager.js:7-42 | no Android value is a system value |
| FontManager.SystemWebDistinct | src/services/fontManager.js:33-48 | system values are pairwise distinct, and so are web values |
| FontManager.WebDisjoint | src/services/fontManager.js:7-48 | no web value is an Android or system value |
| FontManager.CatalogValuesDistinct | src/services/fontManager.js:7-48 | values are unique across the three tables together |
| FontManager.GetAllFonts | src/services/fontManager.js:53-55 | the result equals the Android table: 15 entries, distinct values, all `android` |
| FontManager.GetFontsByCategory | src/services/fontManager.js:60-71 | `system`, `android` and `web` give their tables; every returned entry carries the requested category; the result is empty exactly for any other argument |
| FontManager.GetFontsGrouped | src/services/fontManager.js:76-83 | one group, labelled `Fuentes Android TV`, whose items equal `getAllFonts()` |
| FontManager.GetRecommendedFonts | src/services/fontManager.js:88-96 | five entries, each equal field for field to an Android entry: the 1st, 5th, 2nd, 3rd and 11th |
| FontManager.Find | src/services/fontManager.js:102 | `find` by value: nothing exactly when no entry has the value; otherwise the first entry holding it |
| FontManager.FindDistinct | src/services/fontManager.js:102 | in a table with distinct values, an entry's own value finds that entry |
| FontManager.FindFontByValue | src/services/fontManager.js:101-103 | an entry is found exactly when the value is an Android value; the entry found has that value and category `android` |
| FontManager.FindAndroidEntry | src/services/fontManager.js:101-103 | each Android entry is found by its own value |
| FontManager.OtherTablesNotFound | src/services/fontManager.js:101-103 | system and web values, such as `Arial` and `inherit`, are not found |
| FontManager.IsAndroidCompatible | src/services/fontManager.js:156-159 | true exactly when the value is an Android or a web value |
| FontManager.SystemFontsNotCompatible | src/services/fontManager.js:156-159 | no system font is compatible |
| FontManager.GetFontFamilyWithFallback | src/services/fontManager.js:108-151 | a value outside the Android table comes back unchanged; an Android value gets the output of the first Android branch it passes |
| FontManager.OtherTablesUnchanged | src/services/fontManager.js:139-149 | every system and web value comes back unchanged, so the `system` branch and the `web` branch are never reached |
| FontManager.SansSerifRuleUnreachable | src/services/fontManager.js:132-135 | for every string, the `includes('sans-serif')` branch never fires: the `includes('serif')` branch is tried first and takes every such string |
| FontManager.RobotoEntriesFallback | src/services/fontManager.js:118-119 | the four Roboto entries, `Roboto Mono` and `Roboto Slab` among them, get `"v", 'Helvetica Neue', Arial, sans-serif` |
| FontManager.NamedEntriesFallback | src/services/fontManager.js:120-127 | `Open Sans`, `Source Sans Pro`, `Nunito` and `Lato` each get `"<name>", "Roboto", Arial, sans-serif` |
| FontManager.OpenSansFallback | src/services/fontManager.js:120-121 | `Open Sans` gets `"Open Sans", "Roboto", Arial, sans-serif` |
| FontManager.SourceSansProFallback | src/services/fontManager.js:122-123 | `Source Sans Pro` gets `"Source Sans Pro", "Roboto", Arial, sans-serif` |
| FontManager.NunitoFallback | src/services/fontManager.js:124-125 | `Nunito` gets `"Nunito", "Roboto", Arial, sans-serif` |
| FontManager.LatoFallback | src/services/fontManager.js:126-127 | `Lato` gets `"Lato", "Roboto", Arial, sans-serif` |
| FontManager.MonospaceEntryFallback | src/services/fontManager.js:128-129 | `monospace` takes the mono branch and gets `"monospace", 'Courier New', monospace` |
| FontManager.SerifEntryFallback | src/services/fontManager.js:130-131 | exact `serif` takes its own branch and gets `serif, 'Times New Roman', Times, serif` |
| FontManager.SansSerifFallback | src/services/fontManager.js:132-133 | `sans-serif` takes the `serif` branch and gets `sans-serif, serif` |
| FontManager.SansSerifLightFallback | src/services/fontManager.js:132-133 | `sans-serif-light` takes the `serif` branch and gets `v, serif` |
| FontManager.SansSerifThinFallback | src/services/fontManager.js:132-133 | `sans-serif-thin` takes the `serif` branch and gets `v, serif` |
| FontManager.SansSerifCondensedFallback | src/services/fontManager.js:132-133 | `sans-serif-condensed` takes the `serif` branch and gets `v, serif` |
| FontManager.SansSerifMediumFallback | src/services/fontManager.js:132-133 | `sans-serif-medium` takes the `serif` branch and gets `v, serif` |
| FontManager.SerifSubstringFallback | src/services/fontManager.js:117-133 | an Android value holding `serif` that fails the `Roboto`, exact-name, `mono`/`Mono` and exact `serif` tests gets `v, serif` |
| FontManager.AndroidEntriesSettledEarly | src/services/fontManager.js:117-138 | no Android entry reaches the `sans-serif` branch or the final default branch |
| FontManager.SettledByOccurrence | src/services/fontManager.js:118-133 | a value containing `Roboto`, `mono` or `serif` is decided before the last two branches |
| FontManager.ResolverExamples | src/services/fontManager.js:108-138 | sample values: `Roboto Condensed` gets the Helvetica Neue chain, `Open Sans` the Roboto chain, `unknown-font-xyz` comes back unchanged |
| FontManager.RobotoCondensedFallback | src/services/fontManager.js:118-119 | `Roboto Condensed` gets `"Roboto Condensed", 'Helvetica Neue', Arial, sans-serif` |
| FontManager.UnknownFontUnchanged | src/services/fontManager.js:109-113 | `unknown-font-xyz`, which is in no table, comes back unchanged |
| FontManager.CompatibilityExamples | src/services/fontManager.js:156-159 | sample values: `Arial` is not compatible; `inherit` and `Roboto` are |
| FontManager.ArialNotCompatible | src/services/fontManager.js:156-159 | `Arial`, a system font, is not compatible |
| FontManager.InheritCompatible | src/services/fontManager.js:156-159 | the CSS keyword `inherit` is compatible |
| FontManager.RobotoCompatible | src/services/fontManager.js:156-159 | `Roboto` is compatible |

The tables are transcribed entry by entry from the source. These members carry
no contract of their own; the lemmas above state their properties:

- `LayoutName`, `ContainerStyle` and the literal part of `Zones`.
- `AndroidRuleOf`, `AndroidFamily` and `SystemFamily`.
- `Family` and `ZoneCount`. These are reference definitions: the family
  each identifier names, and the zone count each layout's name and family
  imply (1 for full-screen, 2 for the splits, 3 for the three-zone,
  asymmetric and complex layouts, 4 for grid-2x2).

## Left out

- src/services/pocketbase.js is not part of this model. It is an asynchronous
  client for a remote document store that cannot be seen here.
- vite.config.js is not part of this model. It is build configuration.
- src/types/index.js holds only type comments. Its two unions are the
  `LayoutType` and `PositionType` datatypes.
- `loadGoogleFonts` only writes to the console. It is not modelled.
- layoutConfigs.js and fontManager.js compute no pixel sizes and no canvas, so the model has none.
  Sizes exist only as percentages and Tailwind classes.
- JavaScript object-key lookups can reach prototype members. For example,
  `configs['toString']` finds a method, not the fallback. Each lookup is
  modelled as a closed table over its listed keys only.
- Array identity is not modelled. `getAllFonts` returns a copy, while
  `getFontsByCategory` and `getFontsGrouped` return the shared table. Only
  the contents are compared.
- The source's `label` field is named `displayName`, because `label` is a
  reserved word in Dafny.
- The JavaScript numbers 33.33 and 66.67 become the exact integers 3333 and
  6667. No floating point is involved.
- The `system` case of `getFontFamilyWithFallback`
  (src/services/fontManager.js:139-146) gives serif, monospace and sans-serif
  fallbacks, but it is never reached: `findFontByValue` searches the Android
  table only. The model keeps it as `SystemFamily` and proves it dead
  (`FontManager.OtherTablesUnchanged`).
- FontManager.RobotoEntriesFallback: quoted outputs are stated in terms of the
  value, `"\"" + v + "\", …"`, not as one literal string per value. The two
  forms denote the same string.
