/**
 * The pure half of the settings context: the default settings, the merge of a
 * caller's (partial) settings object over them, the overlay that builds the
 * payload of an update, and the "is customised" test.
 *
 * A JavaScript object with the recognised keys is modelled in two parts: the
 * eight recognised keys (a `Settings` record when all are present, a
 * `PartialSettings` record of options when some may be absent) and the map of
 * any other keys the object happens to carry (`Extras`). Object spread keeps
 * both parts, which is why they are kept apart here.
 */
module SettingsStore {
  import opened Wrappers

  /** The value of one key. The six tag-valued settings hold strings, the two flags booleans. */
  datatype Value = Text(text: string) | Flag(flag: bool)

  /** The eight recognised settings keys. */
  datatype Field =
    | ColorPreset | Contrast | Direction | Layout | NavColor | PaletteMode
    | ResponsiveFontSizes | Stretch

  /** The property names of the eight recognised keys. */
  const FieldNames: set<string> :=
    {"colorPreset", "contrast", "direction", "layout", "navColor", "paletteMode",
     "responsiveFontSizes", "stretch"}

  /** The keys of an object other than the eight recognised ones. */
  type Extras = m: map<string, Value> | forall k :: k in m ==> k !in FieldNames
    witness map[]

  /** A complete settings record: every recognised key present. */
  datatype Settings = Settings(
    colorPreset: string,
    contrast: string,
    direction: string,
    layout: string,
    navColor: string,
    paletteMode: string,
    responsiveFontSizes: bool,
    stretch: bool)

  /** A settings object as a caller supplies it: any recognised key may be absent, and other keys may be present. */
  datatype PartialSettings = PartialSettings(
    colorPreset: Option<string>,
    contrast: Option<string>,
    direction: Option<string>,
    layout: Option<string>,
    navColor: Option<string>,
    paletteMode: Option<string>,
    responsiveFontSizes: Option<bool>,
    stretch: Option<bool>,
    extra: Extras)

  /** A settings object with every recognised key present, together with whatever other keys it carries. */
  datatype SettingsObject = SettingsObject(known: Settings, extra: Extras)

  /** The built-in defaults. */
  const DefaultSettings: Settings :=
    Settings("indigo", "normal", "ltr", "vertical", "evident", "light", true, false)

  /** The empty object `{}`. */
  const NoSettings: PartialSettings :=
    PartialSettings(None, None, None, None, None, None, None, None, map[])

  /** Key-by-key view of a complete record. */
  function Get(s: Settings, f: Field): Value {
    match f
    case ColorPreset => Text(s.colorPreset)
    case Contrast => Text(s.contrast)
    case Direction => Text(s.direction)
    case Layout => Text(s.layout)
    case NavColor => Text(s.navColor)
    case PaletteMode => Text(s.paletteMode)
    case ResponsiveFontSizes => Flag(s.responsiveFontSizes)
    case Stretch => Flag(s.stretch)
  }

  function TextOf(o: Option<string>): Option<Value> {
    match o
    case Some(t) => Some(Text(t))
    case None => None
  }

  function FlagOf(o: Option<bool>): Option<Value> {
    match o
    case Some(b) => Some(Flag(b))
    case None => None
  }

  /** Key-by-key view of a partial record: `None` when the key is absent. */
  function Lookup(p: PartialSettings, f: Field): Option<Value> {
    match f
    case ColorPreset => TextOf(p.colorPreset)
    case Contrast => TextOf(p.contrast)
    case Direction => TextOf(p.direction)
    case Layout => TextOf(p.layout)
    case NavColor => TextOf(p.navColor)
    case PaletteMode => TextOf(p.paletteMode)
    case ResponsiveFontSizes => FlagOf(p.responsiveFontSizes)
    case Stretch => FlagOf(p.stretch)
  }

  /** Two complete records are equal exactly when they agree on every recognised key. */
  lemma {:induction false} FieldwiseEqual(s: Settings, t: Settings)
    ensures s == t <==> forall f :: Get(s, f) == Get(t, f)
  {
    if forall f :: Get(s, f) == Get(t, f) {
      assert Get(s, ColorPreset) == Get(t, ColorPreset);
      assert Get(s, Contrast) == Get(t, Contrast);
      assert Get(s, Direction) == Get(t, Direction);
      assert Get(s, Layout) == Get(t, Layout);
      assert Get(s, NavColor) == Get(t, NavColor);
      assert Get(s, PaletteMode) == Get(t, PaletteMode);
      assert Get(s, ResponsiveFontSizes) == Get(t, ResponsiveFontSizes);
      assert Get(s, Stretch) == Get(t, Stretch);
    }
  }

  /**
   * `{ ...base, ...p }` restricted to the recognised keys: a key present in `p`
   * takes `p`'s value, every other key keeps `base`'s.
   */
  function Overlay(base: Settings, p: PartialSettings): (r: Settings)
    ensures forall f :: Get(r, f) == Lookup(p, f).GetOr(Get(base, f))
  {
    Settings(
      p.colorPreset.GetOr(base.colorPreset),
      p.contrast.GetOr(base.contrast),
      p.direction.GetOr(base.direction),
      p.layout.GetOr(base.layout),
      p.navColor.GetOr(base.navColor),
      p.paletteMode.GetOr(base.paletteMode),
      p.responsiveFontSizes.GetOr(base.responsiveFontSizes),
      p.stretch.GetOr(base.stretch))
  }

  /**
   * The provider's effective settings, `{ ...defaultSettings, ...initialSettings }`:
   * with no settings object the defaults exactly; otherwise every recognised key
   * from the caller where present and from the defaults where not, plus the
   * caller's other keys.
   */
  function Merge(initial: Option<PartialSettings>): (r: SettingsObject)
    ensures initial.None? ==> r.known == DefaultSettings && r.extra == map[]
    ensures initial.Some? ==>
      && (forall f :: Get(r.known, f) == Lookup(initial.value, f).GetOr(Get(DefaultSettings, f)))
      && r.extra == initial.value.extra
  {
    match initial
    case None => SettingsObject(DefaultSettings, map[])
    case Some(p) => SettingsObject(Overlay(DefaultSettings, p), p.extra)
  }

  /**
   * The object handed to `onUpdate`: the eight recognised keys copied from the
   * current effective settings, then `newSettings` spread on top. A key the
   * update omits keeps its current value (not its default); the current
   * settings' other keys are not copied, the update's own other keys are.
   */
  function UpdatePayload(current: SettingsObject, newSettings: PartialSettings): (r: SettingsObject)
    ensures forall f :: Get(r.known, f) == Lookup(newSettings, f).GetOr(Get(current.known, f))
    ensures r.extra == newSettings.extra
  {
    SettingsObject(Overlay(current.known, newSettings), newSettings.extra)
  }

  /**
   * Whether the settings differ from the defaults: the settings are first
   * projected onto the eight recognised keys (`known`), so other keys never
   * take part in the comparison.
   */
  predicate IsCustom(s: SettingsObject) {
    s.known != DefaultSettings
  }

  /** The settings are customised exactly when at least one recognised key differs from its default. */
  lemma IsCustomIff(s: SettingsObject)
    ensures IsCustom(s) <==> exists f :: Get(s.known, f) != Get(DefaultSettings, f)
  {
    FieldwiseEqual(s.known, DefaultSettings);
  }

  /** Settings that agree on the eight recognised keys are equally customised, whatever other keys they carry. */
  lemma IsCustomIgnoresExtras(s: SettingsObject, t: SettingsObject)
    requires forall f :: Get(s.known, f) == Get(t.known, f)
    ensures IsCustom(s) == IsCustom(t)
  {
    FieldwiseEqual(s.known, t.known);
  }

  /** Without a settings object, and with the empty one, the provider is not customised. */
  lemma DefaultsAreNotCustom()
    ensures Merge(None) == SettingsObject(DefaultSettings, map[])
    ensures !IsCustom(Merge(None))
    ensures Merge(Some(NoSettings)) == SettingsObject(DefaultSettings, map[])
  {
  }

  /** The full settings object as a caller would pass it back: every recognised key present. */
  function AsPartial(s: SettingsObject): PartialSettings {
    PartialSettings(
      Some(s.known.colorPreset), Some(s.known.contrast), Some(s.known.direction),
      Some(s.known.layout), Some(s.known.navColor), Some(s.known.paletteMode),
      Some(s.known.responsiveFontSizes), Some(s.known.stretch), s.extra)
  }

  /**
   * The host closes the loop of the unidirectional data flow by passing the
   * object it received from `onUpdate` back in as the provider's settings; the
   * provider's effective settings are then exactly that object.
   */
  lemma MergeOfPayload(current: SettingsObject, newSettings: PartialSettings)
    ensures Merge(Some(AsPartial(UpdatePayload(current, newSettings)))) == UpdatePayload(current, newSettings)
  {
  }

  /** An update that names no key re-sends the current recognised settings and nothing else. */
  lemma EmptyUpdateResendsCurrent(current: SettingsObject)
    ensures UpdatePayload(current, NoSettings) == SettingsObject(current.known, map[])
  {
  }

  /**
   * A provider given `{ paletteMode: "dark" }` is customised, and the update
   * `{ colorPreset: "cyan" }` sends every other key from the current settings.
   */
  lemma DarkThenCyanScenario()
    ensures var s := Merge(Some(NoSettings.(paletteMode := Some("dark"))));
      && s.known == DefaultSettings.(paletteMode := "dark")
      && IsCustom(s)
      && UpdatePayload(s, NoSettings.(colorPreset := Some("cyan"))).known
         == Settings("cyan", "normal", "ltr", "vertical", "evident", "dark", true, false)
  {
  }
}
