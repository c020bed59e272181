/**
 * The font catalog of the signage preview: three constant tables (fonts
 * available on Android TV, desktop system fonts, CSS keywords), accessors
 * over them, lookup by value, the CSS `font-family` fallback resolver and
 * the Android compatibility test.
 */
module FontManager {

  import opened Wrappers
  import opened Strings

  datatype Category = Android | System | Web

  /** The category tag as it is written in the tables. */
  function CategoryName(c: Category): string {
    match c
    case Android => "android"
    case System => "system"
    case Web => "web"
  }

  datatype FontEntry = FontEntry(displayName: string, value: string, category: Category, description: string)

  /** A labelled group of entries, as shown in a dropdown. */
  datatype FontGroup = FontGroup(displayName: string, items: seq<FontEntry>)

  // ---------------------------------------------------------------- tables

  /** The fonts available on Android TV. */
  function AndroidFonts(): (r: seq<FontEntry>)
    ensures |r| == 15
    ensures forall i | 0 <= i < |r| :: r[i].category == Android
  {
    [
      FontEntry("Roboto", "Roboto", Android, "Fuente predeterminada de Android"),
      FontEntry("Roboto Condensed", "Roboto Condensed", Android, "Versión condensada de Roboto"),
      FontEntry("Roboto Mono", "Roboto Mono", Android, "Roboto monospace"),
      FontEntry("Roboto Slab", "Roboto Slab", Android, "Roboto con serifas"),
      FontEntry("Sans-serif", "sans-serif", Android, "Sans-serif genérica de Android"),
      FontEntry("Serif", "serif", Android, "Serif genérica de Android"),
      FontEntry("Monospace", "monospace", Android, "Monospace genérica de Android"),
      FontEntry("Sans-serif Light", "sans-serif-light", Android, "Sans-serif ligera de Android"),
      FontEntry("Sans-serif Thin", "sans-serif-thin", Android, "Sans-serif delgada de Android"),
      FontEntry("Sans-serif Condensed", "sans-serif-condensed", Android, "Sans-serif condensada de Android"),
      FontEntry("Sans-serif Medium", "sans-serif-medium", Android, "Sans-serif media de Android"),
      FontEntry("Open Sans", "Open Sans", Android, "Sans-serif humanista muy legible"),
      FontEntry("Lato", "Lato", Android, "Sans-serif moderna y elegante"),
      FontEntry("Source Sans Pro", "Source Sans Pro", Android, "Sans-serif de Adobe para UI"),
      FontEntry("Nunito", "Nunito", Android, "Sans-serif redondeada amigable")
    ]
  }

  /** The standard desktop system fonts. */
  function SystemFonts(): (r: seq<FontEntry>)
    ensures |r| == 8
    ensures forall i | 0 <= i < |r| :: r[i].category == System
  {
    [
      FontEntry("Arial", "Arial", System, "Sans-serif estándar"),
      FontEntry("Helvetica", "Helvetica", System, "Sans-serif clásica"),
      FontEntry("Times New Roman", "Times New Roman", System, "Serif tradicional"),
      FontEntry("Georgia", "Georgia", System, "Serif optimizada para pantalla"),
      FontEntry("Verdana", "Verdana", System, "Sans-serif legible"),
      FontEntry("Courier New", "Courier New", System, "Monospace estándar"),
      FontEntry("Impact", "Impact", System, "Sans-serif condensada"),
      FontEntry("Comic Sans MS", "Comic Sans MS", System, "Informal y casual")
    ]
  }

  /** The CSS keywords offered as fonts. */
  function WebFonts(): (r: seq<FontEntry>)
    ensures |r| == 2
    ensures forall i | 0 <= i < |r| :: r[i].category == Web
  {
    [
      FontEntry("Inherit (Heredar)", "inherit", Web, "Hereda de elemento padre"),
      FontEntry("Default (Por defecto)", "initial", Web, "Valor inicial del navegador")
    ]
  }

  /** No two entries of `fonts` share a value. */
  predicate DistinctValues(fonts: seq<FontEntry>) {
    forall i, j | 0 <= i < j < |fonts| :: fonts[i].value != fonts[j].value
  }

  /** The values of a table. */
  ghost function Values(fonts: seq<FontEntry>): set<string> {
    set i | 0 <= i < |fonts| :: fonts[i].value
  }

  /** The Android values are pairwise distinct. */
  lemma AndroidValuesDistinct()
    ensures DistinctValues(AndroidFonts())
  {
  }

  /** No entry of `a` has the value of an entry of `b`. */
  predicate DisjointValues(a: seq<FontEntry>, b: seq<FontEntry>) {
    forall i, j | 0 <= i < |a| && 0 <= j < |b| :: a[i].value != b[j].value
  }

  /** No Android value is a system font value. */
  lemma AndroidSystemDisjoint()
    ensures DisjointValues(AndroidFonts(), SystemFonts())
  {
  }

  /** The system values are distinct, and so are the web values. */
  lemma SystemWebDistinct()
    ensures DistinctValues(SystemFonts()) && DistinctValues(WebFonts())
  {
  }

  /** No web value is an Android or a system value. */
  lemma WebDisjoint()
    ensures DisjointValues(AndroidFonts(), WebFonts()) && DisjointValues(SystemFonts(), WebFonts())
  {
  }

  /** Concatenating tables with distinct, mutually disjoint values keeps values distinct. */
  lemma DistinctConcat(a: seq<FontEntry>, b: seq<FontEntry>)
    requires DistinctValues(a) && DistinctValues(b) && DisjointValues(a, b)
    ensures DistinctValues(a + b)
  {
    forall i, j | 0 <= i < j < |a + b|
      ensures (a + b)[i].value != (a + b)[j].value
    {
      if j < |a| {
        assert (a + b)[i] == a[i] && (a + b)[j] == a[j];
      } else if i < |a| {
        assert (a + b)[i] == a[i] && (a + b)[j] == b[j - |a|];
      } else {
        assert (a + b)[i] == b[i - |a|] && (a + b)[j] == b[j - |a|];
      }
    }
  }

  /** Values are unique across the whole catalog: no value appears twice in any table or in two tables. */
  lemma CatalogValuesDistinct()
    ensures DistinctValues(AndroidFonts() + SystemFonts() + WebFonts())
  {
    var a, s, w := AndroidFonts(), SystemFonts(), WebFonts();
    AndroidValuesDistinct();
    AndroidSystemDisjoint();
    SystemWebDistinct();
    WebDisjoint();
    DistinctConcat(a, s);
    forall i, j | 0 <= i < |a + s| && 0 <= j < |w|
      ensures (a + s)[i].value != w[j].value
    {
      if i < |a| {
        assert (a + s)[i] == a[i];
      } else {
        assert (a + s)[i] == s[i - |a|];
      }
    }
    DistinctConcat(a + s, w);
  }

  // ---------------------------------------------------------------- accessors

  /** `getAllFonts`: a copy of the Android table, the only fonts offered for TV. */
  function GetAllFonts(): (r: seq<FontEntry>)
    ensures r == AndroidFonts()
    ensures |r| == 15 && DistinctValues(r)
    ensures forall i | 0 <= i < |r| :: r[i].category == Android
  {
    AndroidValuesDistinct();
    AndroidFonts()
  }

  /**
   * `getFontsByCategory`: the table of the named category; every entry
   * returned carries that category, and an unknown category gives nothing.
   */
  function GetFontsByCategory(category: string): (r: seq<FontEntry>)
    ensures category == "system" ==> r == SystemFonts()
    ensures category == "android" ==> r == AndroidFonts()
    ensures category == "web" ==> r == WebFonts()
    ensures forall i | 0 <= i < |r| :: CategoryName(r[i].category) == category
    ensures r == [] <==> category !in {"system", "android", "web"}
  {
    if category == "system" then SystemFonts()
    else if category == "android" then AndroidFonts()
    else if category == "web" then WebFonts()
    else []
  }

  /** `getFontsGrouped`: a single dropdown group holding the Android table. */
  function GetFontsGrouped(): (r: seq<FontGroup>)
    ensures |r| == 1
    ensures r[0].displayName == "Fuentes Android TV"
    ensures r[0].items == GetAllFonts()
  {
    [FontGroup("Fuentes Android TV", AndroidFonts())]
  }

  /**
   * `getRecommendedFonts`: five curated entries, each of them equal field
   * for field to an Android table entry.
   */
  function GetRecommendedFonts(): (r: seq<FontEntry>)
    ensures |r| == 5
    ensures r == [AndroidFonts()[0], AndroidFonts()[4], AndroidFonts()[1], AndroidFonts()[2], AndroidFonts()[10]]
    ensures forall i | 0 <= i < |r| :: r[i] in AndroidFonts()
  {
    [
      FontEntry("Roboto", "Roboto", Android, "Fuente predeterminada de Android"),
      FontEntry("Sans-serif", "sans-serif", Android, "Sans-serif genérica de Android"),
      FontEntry("Roboto Condensed", "Roboto Condensed", Android, "Versión condensada de Roboto"),
      FontEntry("Roboto Mono", "Roboto Mono", Android, "Roboto monospace"),
      FontEntry("Sans-serif Medium", "sans-serif-medium", Android, "Sans-serif media de Android")
    ]
  }

  // ---------------------------------------------------------------- lookup

  /**
   * `Array.prototype.find` by value: the first entry whose value is `v`,
   * or nothing when no entry has it.
   */
  function Find(fonts: seq<FontEntry>, v: string): (r: Option<FontEntry>)
    ensures r.None? <==> forall i | 0 <= i < |fonts| :: fonts[i].value != v
    ensures r.Some? ==> r.value in fonts && r.value.value == v
    ensures forall k | 0 <= k < |fonts| && fonts[k].value == v && (forall j | 0 <= j < k :: fonts[j].value != v)
              :: r == Some(fonts[k])
    decreases |fonts|
  {
    if fonts == [] then None
    else if fonts[0].value == v then Some(fonts[0])
    else Find(fonts[1..], v)
  }

  /** In a table with distinct values, the entry holding a value is the one found for it. */
  lemma FindDistinct(fonts: seq<FontEntry>, k: nat)
    requires DistinctValues(fonts) && k < |fonts|
    ensures Find(fonts, fonts[k].value) == Some(fonts[k])
  {
  }

  /** `findFontByValue`: lookup in the Android table only. */
  function FindFontByValue(v: string): (r: Option<FontEntry>)
    ensures r.Some? <==> v in Values(AndroidFonts())
    ensures r.Some? ==> r.value in AndroidFonts() && r.value.value == v && r.value.category == Android
  {
    Find(GetAllFonts(), v)
  }

  /** Each Android entry is found by its own value. */
  lemma FindAndroidEntry(k: nat)
    requires k < 15
    ensures FindFontByValue(AndroidFonts()[k].value) == Some(AndroidFonts()[k])
  {
    AndroidValuesDistinct();
    FindDistinct(AndroidFonts(), k);
  }

  /** System and web values, the CSS keywords among them, are not found. */
  lemma OtherTablesNotFound(v: string)
    requires v in Values(SystemFonts()) + Values(WebFonts())
    ensures FindFontByValue(v).None?
  {
    AndroidSystemDisjoint();
    WebDisjoint();
  }

  // ---------------------------------------------------------------- compatibility

  /**
   * `isAndroidCompatible`: the value is in the Android table or in the web
   * table (`Array.prototype.some`, which holds exactly when `find` finds an
   * entry). System fonts are not compatible.
   */
  function IsAndroidCompatible(v: string): (b: bool)
    ensures b <==> v in Values(AndroidFonts()) + Values(WebFonts())
  {
    Find(AndroidFonts(), v).Some? || Find(WebFonts(), v).Some?
  }

  /** No system font is Android compatible. */
  lemma SystemFontsNotCompatible(k: nat)
    requires k < |SystemFonts()|
    ensures !IsAndroidCompatible(SystemFonts()[k].value)
  {
    AndroidSystemDisjoint();
    WebDisjoint();
  }

  // ---------------------------------------------------------------- CSS fallback resolver

  /** The branches of the Android fallback chain, in the order they are tried. */
  datatype AndroidRule =
    | RobotoRule        // the value contains `Roboto`
    | OpenSansRule      // exactly `Open Sans`
    | SourceSansProRule // exactly `Source Sans Pro`
    | NunitoRule        // exactly `Nunito`
    | LatoRule          // exactly `Lato`
    | MonoRule          // the value contains `mono` or `Mono`
    | SerifKeywordRule  // exactly `serif`
    | SerifRule         // the value contains `serif`
    | SansSerifRule     // the value contains `sans-serif`
    | DefaultRule       // anything else

  /** The first branch of the Android chain whose test `v` passes. */
  function AndroidRuleOf(v: string): AndroidRule {
    if Contains(v, "Roboto") then RobotoRule
    else if v == "Open Sans" then OpenSansRule
    else if v == "Source Sans Pro" then SourceSansProRule
    else if v == "Nunito" then NunitoRule
    else if v == "Lato" then LatoRule
    else if Contains(v, "mono") || Contains(v, "Mono") then MonoRule
    else if v == "serif" then SerifKeywordRule
    else if Contains(v, "serif") then SerifRule
    else if Contains(v, "sans-serif") then SansSerifRule
    else DefaultRule
  }

  /** The `font-family` value each Android branch produces for `v`. */
  function AndroidFamily(rule: AndroidRule, v: string): string {
    match rule
    case RobotoRule => "\"" + v + "\", 'Helvetica Neue', Arial, sans-serif"
    case OpenSansRule => "\"Open Sans\", \"Roboto\", Arial, sans-serif"
    case SourceSansProRule => "\"Source Sans Pro\", \"Roboto\", Arial, sans-serif"
    case NunitoRule => "\"Nunito\", \"Roboto\", Arial, sans-serif"
    case LatoRule => "\"Lato\", \"Roboto\", Arial, sans-serif"
    case MonoRule => "\"" + v + "\", 'Courier New', monospace"
    case SerifKeywordRule => v + ", 'Times New Roman', Times, serif"
    case SerifRule => v + ", serif"
    case SansSerifRule => v + ", Arial, sans-serif"
    case DefaultRule => "\"" + v + "\", \"Roboto\", Arial, sans-serif"
  }

  /** The `system` branch of the resolver. */
  function SystemFamily(v: string): string {
    if Contains(v, "Times") || v == "Georgia" then v + ", serif"
    else if Contains(v, "Courier") then v + ", monospace"
    else v + ", sans-serif"
  }

  /**
   * `getFontFamilyWithFallback`: a value the lookup does not find is
   * returned unchanged; a found entry gets the fallbacks of its category
   * (the `web` branch and the default return the value unchanged).
   * Because the lookup searches the Android table only, the found entry
   * is always an Android one.
   */
  function GetFontFamilyWithFallback(fontValue: string): (r: string)
    ensures fontValue !in Values(AndroidFonts()) ==> r == fontValue
    ensures fontValue in Values(AndroidFonts()) ==> r == AndroidFamily(AndroidRuleOf(fontValue), fontValue)
  {
    match FindFontByValue(fontValue)
    case None => fontValue
    case Some(font) =>
      match font.category
      case Android => AndroidFamily(AndroidRuleOf(fontValue), fontValue)
      case System => SystemFamily(fontValue)
      case Web => fontValue
  }

  /**
   * The `includes('sans-serif')` branch is dead for every string: any value
   * containing `sans-serif` contains `serif` and is taken by the branch before.
   */
  lemma SansSerifRuleUnreachable(v: string)
    ensures AndroidRuleOf(v) != SansSerifRule
  {
    if Contains(v, "sans-serif") {
      assert MatchesAt("sans-serif", "serif", 5);
      ContainsTransitive(v, "sans-serif", "serif");
    }
  }

  /** Every system and web value, CSS keywords included, comes back unchanged. */
  lemma OtherTablesUnchanged(v: string)
    requires v in Values(SystemFonts()) + Values(WebFonts())
    ensures GetFontFamilyWithFallback(v) == v
  {
    OtherTablesNotFound(v);
  }

  /**
   * The four Roboto entries, `Roboto Mono` and `Roboto Slab` included, take
   * the first branch and get the Helvetica Neue chain.
   */
  lemma RobotoEntriesFallback(k: nat)
    requires k < 4
    ensures AndroidRuleOf(AndroidFonts()[k].value) == RobotoRule
    ensures GetFontFamilyWithFallback(AndroidFonts()[k].value)
            == "\"" + AndroidFonts()[k].value + "\", 'Helvetica Neue', Arial, sans-serif"
  {
    var v := AndroidFonts()[k].value;
    assert v in Values(AndroidFonts());
    assert MatchesAt(v, "Roboto", 0);
  }

  /**
   * `Open Sans`, `Source Sans Pro`, `Nunito` and `Lato` contain no `Roboto`,
   * so each reaches its exact-name branch and gets the Roboto chain, in the
   * same shape the default branch would give.
   */
  lemma NamedEntriesFallback()
    ensures GetFontFamilyWithFallback("Open Sans") == "\"Open Sans\", \"Roboto\", Arial, sans-serif"
    ensures GetFontFamilyWithFallback("Source Sans Pro") == "\"Source Sans Pro\", \"Roboto\", Arial, sans-serif"
    ensures GetFontFamilyWithFallback("Nunito") == "\"Nunito\", \"Roboto\", Arial, sans-serif"
    ensures GetFontFamilyWithFallback("Lato") == "\"Lato\", \"Roboto\", Arial, sans-serif"
  {
    OpenSansFallback("Open Sans");
    SourceSansProFallback("Source Sans Pro");
    NunitoFallback("Nunito");
    LatoFallback("Lato");
  }

  /** `Open Sans` is found and skips the `Roboto` test. */
  lemma OpenSansFallback(v: string)
    requires v == "Open Sans"
    ensures GetFontFamilyWithFallback(v) == "\"Open Sans\", \"Roboto\", Arial, sans-serif"
  {
    assert v == AndroidFonts()[11].value;
    assert v in Values(AndroidFonts());
    MissingCharNotContained(v, "Roboto", 'R');
  }

  /** `Source Sans Pro` is found and skips the `Roboto` test. */
  lemma SourceSansProFallback(v: string)
    requires v == "Source Sans Pro"
    ensures GetFontFamilyWithFallback(v) == "\"Source Sans Pro\", \"Roboto\", Arial, sans-serif"
  {
    assert v == AndroidFonts()[13].value;
    assert v in Values(AndroidFonts());
    MissingCharNotContained(v, "Roboto", 'R');
  }

  /** `Nunito` is found and skips the `Roboto` test. */
  lemma NunitoFallback(v: string)
    requires v == "Nunito"
    ensures GetFontFamilyWithFallback(v) == "\"Nunito\", \"Roboto\", Arial, sans-serif"
  {
    assert v == AndroidFonts()[14].value;
    assert v in Values(AndroidFonts());
    MissingCharNotContained(v, "Roboto", 'R');
  }

  /** `Lato` is found and skips the `Roboto` test. */
  lemma LatoFallback(v: string)
    requires v == "Lato"
    ensures GetFontFamilyWithFallback(v) == "\"Lato\", \"Roboto\", Arial, sans-serif"
  {
    assert v == AndroidFonts()[12].value;
    assert v in Values(AndroidFonts());
    MissingCharNotContained(v, "Roboto", 'R');
  }

  /** `monospace` contains `mono` and gets the Courier New chain. */
  lemma MonospaceEntryFallback()
    ensures AndroidRuleOf(AndroidFonts()[6].value) == MonoRule
    ensures GetFontFamilyWithFallback(AndroidFonts()[6].value)
            == "\"" + AndroidFonts()[6].value + "\", 'Courier New', monospace"
  {
    var v := AndroidFonts()[6].value;
    assert v in Values(AndroidFonts());
    MissingCharNotContained(v, "Roboto", 'R');
    assert MatchesAt(v, "mono", 0);
  }

  /** The `serif` keyword has its own branch: the Times New Roman chain, unquoted. */
  lemma SerifEntryFallback()
    ensures AndroidRuleOf(AndroidFonts()[5].value) == SerifKeywordRule
    ensures GetFontFamilyWithFallback(AndroidFonts()[5].value)
            == AndroidFonts()[5].value + ", 'Times New Roman', Times, serif"
  {
    var v := AndroidFonts()[5].value;
    assert v in Values(AndroidFonts());
    MissingCharNotContained(v, "Roboto", 'R');
    MissingCharNotContained(v, "mono", 'm');
    MissingCharNotContained(v, "Mono", 'M');
  }

  /**
   * The five `sans-serif` keywords contain `serif`, so each is taken by the
   * `serif` branch and gets `, serif` appended, not the sans-serif chain;
   * this one is `sans-serif` itself.
   */
  lemma SansSerifFallback(v: string)
    requires v == "sans-serif"
    ensures AndroidRuleOf(v) == SerifRule
    ensures GetFontFamilyWithFallback(v) == v + ", serif"
  {
    assert MatchesAt(v, "serif", 5);
    SerifSubstringFallback(v, 4, 'm');
  }

  /** `sans-serif-light` is taken by the `serif` branch. */
  lemma SansSerifLightFallback(v: string)
    requires v == "sans-serif-light"
    ensures AndroidRuleOf(v) == SerifRule
    ensures GetFontFamilyWithFallback(v) == v + ", serif"
  {
    assert MatchesAt(v, "serif", 5);
    SerifSubstringFallback(v, 7, 'm');
  }

  /** `sans-serif-thin` is taken by the `serif` branch. */
  lemma SansSerifThinFallback(v: string)
    requires v == "sans-serif-thin"
    ensures AndroidRuleOf(v) == SerifRule
    ensures GetFontFamilyWithFallback(v) == v + ", serif"
  {
    assert MatchesAt(v, "serif", 5);
    SerifSubstringFallback(v, 8, 'm');
  }

  /** `sans-serif-condensed` is taken by the `serif` branch. */
  lemma SansSerifCondensedFallback(v: string)
    requires v == "sans-serif-condensed"
    ensures AndroidRuleOf(v) == SerifRule
    ensures GetFontFamilyWithFallback(v) == v + ", serif"
  {
    assert MatchesAt(v, "serif", 5);
    SerifSubstringFallback(v, 9, 'm');
  }

  /** `sans-serif-medium` has an `m` but no `o`, so it holds no `mono` either; it is taken by the `serif` branch. */
  lemma SansSerifMediumFallback(v: string)
    requires v == "sans-serif-medium"
    ensures AndroidRuleOf(v) == SerifRule
    ensures GetFontFamilyWithFallback(v) == v + ", serif"
  {
    assert MatchesAt(v, "serif", 5);
    SerifSubstringFallback(v, 10, 'o');
  }

  /**
   * An Android value with `serif` at offset 5 and without `R`, `M` and one
   * letter of `mono` fails every test before `includes('serif')`.
   */
  lemma SerifSubstringFallback(v: string, k: nat, c: char)
    requires k < |AndroidFonts()| && v == AndroidFonts()[k].value
    requires v[0] == 's' && MatchesAt(v, "serif", 5)
    requires 'R' !in v && 'M' !in v && c in "mono" && c !in v
    ensures AndroidRuleOf(v) == SerifRule
    ensures GetFontFamilyWithFallback(v) == v + ", serif"
  {
    assert v in Values(AndroidFonts());
    MissingCharNotContained(v, "Roboto", 'R');
    MissingCharNotContained(v, "mono", c);
    MissingCharNotContained(v, "Mono", 'M');
  }

  /**
   * No Android entry reaches the last two branches of the chain: every
   * catalog value is settled by a `Roboto`, exact-name, `mono` or `serif` test.
   */
  lemma AndroidEntriesSettledEarly(k: nat)
    requires k < |AndroidFonts()|
    ensures AndroidRuleOf(AndroidFonts()[k].value) !in {SansSerifRule, DefaultRule}
  {
    var v := AndroidFonts()[k].value;
    if k < 4 {
      SettledByOccurrence(v, "Roboto", 0);
    } else if k == 5 {
      SettledByOccurrence(v, "serif", 0);
    } else if k == 6 {
      SettledByOccurrence(v, "mono", 0);
    } else if k < 11 {
      SettledByOccurrence(v, "serif", 5);
    } else {
      SansSerifRuleUnreachable(v);
    }
  }

  /** A value containing `Roboto`, `mono` or `serif` is settled before the last two branches. */
  lemma SettledByOccurrence(v: string, p: string, i: nat)
    requires p in {"Roboto", "mono", "serif"} && MatchesAt(v, p, i)
    ensures AndroidRuleOf(v) !in {SansSerifRule, DefaultRule}
  {
  }

  // ---------------------------------------------------------------- sample values

  /** Sample values of the resolver: a Roboto entry, an exact-name entry, and a value outside the catalog. */
  lemma ResolverExamples()
    ensures GetFontFamilyWithFallback("Roboto Condensed")
            == "\"" + "Roboto Condensed" + "\", 'Helvetica Neue', Arial, sans-serif"
    ensures GetFontFamilyWithFallback("Open Sans") == "\"Open Sans\", \"Roboto\", Arial, sans-serif"
    ensures GetFontFamilyWithFallback("unknown-font-xyz") == "unknown-font-xyz"
  {
    RobotoCondensedFallback("Roboto Condensed");
    OpenSansFallback("Open Sans");
    UnknownFontUnchanged("unknown-font-xyz");
  }

  /** Sample values of the compatibility test: a system font is not compatible, a web keyword and an Android font are. */
  lemma CompatibilityExamples()
    ensures !IsAndroidCompatible("Arial")
    ensures IsAndroidCompatible("inherit")
    ensures IsAndroidCompatible("Roboto")
  {
    ArialNotCompatible("Arial");
    InheritCompatible("inherit");
    RobotoCompatible("Roboto");
  }

  /** `Roboto Condensed` gets the Helvetica Neue chain. */
  lemma RobotoCondensedFallback(v: string)
    requires v == "Roboto Condensed"
    ensures GetFontFamilyWithFallback(v) == "\"" + v + "\", 'Helvetica Neue', Arial, sans-serif"
  {
    assert v == AndroidFonts()[1].value;
    RobotoEntriesFallback(1);
  }

  /** A value outside the catalog comes back as it is. */
  lemma UnknownFontUnchanged(v: string)
    requires v == "unknown-font-xyz"
    ensures GetFontFamilyWithFallback(v) == v
  {
    assert v !in Values(AndroidFonts());
  }

  /** `Arial`, a system font, is not compatible. */
  lemma ArialNotCompatible(v: string)
    requires v == "Arial"
    ensures !IsAndroidCompatible(v)
  {
    assert v == SystemFonts()[0].value;
    SystemFontsNotCompatible(0);
  }

  /** The `inherit` keyword, a web entry, is compatible. */
  lemma InheritCompatible(v: string)
    requires v == "inherit"
    ensures IsAndroidCompatible(v)
  {
    assert v == WebFonts()[0].value;
    assert v in Values(WebFonts());
  }

  /** `Roboto`, an Android entry, is compatible. */
  lemma RobotoCompatible(v: string)
    requires v == "Roboto"
    ensures IsAndroidCompatible(v)
  {
    assert v == AndroidFonts()[0].value;
    assert v in Values(AndroidFonts());
  }
}
