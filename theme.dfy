/**
 * The appearance settings shared by every page: a colour theme, a font size and a
 * contrast mode, read from `localStorage` on start, cycled by three actions, and
 * written back to the document class and to storage whenever one of them changes.
 */
module Theme {
  import opened Wrappers
  import opened Text
  import opened Catalog

  /** The theme values in the order `toggleTheme` visits them. */
  const Themes: seq<string> := ["light", "dark", "blue"]
  /** The font sizes in the order `cycleFontSize` visits them. */
  const FontSizes: seq<string> := ["small", "medium", "large"]
  /** The contrast modes in the order `toggleContrast` visits them. */
  const Contrasts: seq<string> := ["normal", "high"]

  /**
   * The three settings. Storage is read with an unchecked cast, so a setting may
   * hold any non-empty string until its action is first used.
   */
  datatype Settings = Settings(theme: string, fontSize: string, contrast: string)

  /** The values used when nothing is stored. */
  const Defaults := Settings("blue", "medium", "normal")

  /** No setting is the empty string: every source of a value rules it out. */
  predicate NonBlank(s: Settings) {
    s.theme != "" && s.fontSize != "" && s.contrast != ""
  }

  /** `toggleTheme`: light to dark, dark to blue, anything else to light. */
  function NextTheme(t: string): (r: string)
    ensures r in Themes && r != t
  {
    if t == "light" then "dark" else if t == "dark" then "blue" else "light"
  }

  /** `cycleFontSize`: small to medium, medium to large, anything else to small. */
  function NextFontSize(f: string): (r: string)
    ensures r in FontSizes && r != f
  {
    if f == "small" then "medium" else if f == "medium" then "large" else "small"
  }

  /** `toggleContrast`: normal to high, anything else to normal. */
  function NextContrast(c: string): (r: string)
    ensures r in Contrasts && r != c
  {
    if c == "normal" then "high" else "normal"
  }

  /** Each theme is followed by the next one in `Themes`, the last by the first. */
  lemma ThemeFollowsOrder(i: nat)
    requires i < |Themes|
    ensures NextTheme(Themes[i]) == Themes[(i + 1) % |Themes|]
  {
  }

  /** Each font size is followed by the next one in `FontSizes`, the last by the first. */
  lemma FontSizeFollowsOrder(i: nat)
    requires i < |FontSizes|
    ensures NextFontSize(FontSizes[i]) == FontSizes[(i + 1) % |FontSizes|]
  {
  }

  /** Each contrast mode is followed by the other one. */
  lemma ContrastFollowsOrder(i: nat)
    requires i < |Contrasts|
    ensures NextContrast(Contrasts[i]) == Contrasts[(i + 1) % |Contrasts|]
  {
  }

  /**
   * Three theme toggles come back to a known theme; from a theme outside the three
   * the first toggle lands on the cycle and never leaves it.
   */
  lemma ThemePeriod(t: string)
    ensures t in Themes ==> NextTheme(NextTheme(NextTheme(t))) == t
    ensures t in Themes ==> NextTheme(NextTheme(t)) != t
    ensures NextTheme(NextTheme(NextTheme(NextTheme(t)))) == NextTheme(t)
  {
  }

  /** Three font-size steps come back to a known size. */
  lemma FontSizePeriod(f: string)
    ensures f in FontSizes ==> NextFontSize(NextFontSize(NextFontSize(f))) == f
    ensures f in FontSizes ==> NextFontSize(NextFontSize(f)) != f
    ensures NextFontSize(NextFontSize(NextFontSize(NextFontSize(f)))) == NextFontSize(f)
  {
  }

  /** Contrast toggling is an involution on the two known modes. */
  lemma ContrastInvolution(c: string)
    ensures c in Contrasts ==> NextContrast(NextContrast(c)) == c
    ensures NextContrast(NextContrast(NextContrast(c))) == NextContrast(c)
  {
  }

  /** `localStorage.getItem(key) || fallback`. */
  function StoredOr(storage: Storage, key: string, fallback: string): (r: string)
    ensures fallback != "" ==> r != ""
    ensures r == fallback <==> key !in storage || storage[key] in {"", fallback}
  {
    var v := GetItem(storage, key);
    if Truthy(v) then v.value else fallback
  }

  /** The settings the provider starts with. */
  function Initial(storage: Storage): (s: Settings)
    ensures NonBlank(s)
    ensures storage == map[] ==> s == Defaults
  {
    Settings(StoredOr(storage, "theme", "blue"),
             StoredOr(storage, "fontSize", "medium"),
             StoredOr(storage, "contrast", "normal"))
  }

  /** The persisting effect's three `setItem` calls. */
  function Persist(storage: Storage, s: Settings): (r: Storage)
    ensures r.Keys == storage.Keys + {"theme", "fontSize", "contrast"}
    ensures forall k :: k in storage && k !in {"theme", "fontSize", "contrast"} ==> r[k] == storage[k]
  {
    storage["theme" := s.theme]["fontSize" := s.fontSize]["contrast" := s.contrast]
  }

  /** What a later load reads back is what was saved, whatever else storage held. */
  lemma PersistThenLoad(storage: Storage, s: Settings)
    requires NonBlank(s)
    ensures Initial(Persist(storage, s)) == s
  {
  }

  /** Saving the settings that were just loaded from storage again keeps a saved storage. */
  lemma PersistIdempotent(storage: Storage, s: Settings)
    ensures Persist(Persist(storage, s), s) == Persist(storage, s)
  {
  }

  /** The document's class attribute: the three settings separated by spaces. */
  function ClassName(s: Settings): string {
    s.theme + " " + s.fontSize + " " + s.contrast
  }

  /**
   * The class attribute names the three settings as three separate classes, as long
   * as none of them holds a space.
   */
  lemma ClassNameSplits(s: Settings)
    requires ' ' !in s.theme && ' ' !in s.fontSize && ' ' !in s.contrast
    ensures Split(ClassName(s), ' ') == [s.theme, s.fontSize, s.contrast]
  {
    JoinThree([' '], s.theme, s.fontSize, s.contrast);
    SplitJoin([s.theme, s.fontSize, s.contrast], ' ');
  }

  /** The provider's state: the settings, the document class, and storage. */
  class ThemeProvider {
    var settings: Settings
    var className: string
    var storage: Storage

    /** After each effect the document and storage reflect the settings. */
    predicate Valid()
      reads this
    {
      && NonBlank(settings)
      && className == ClassName(settings)
      && Initial(storage) == settings
    }

    /** Mounting: read the three settings, then run the effect once. */
    constructor(stored: Storage)
      ensures settings == Initial(stored)
      ensures storage == Persist(stored, settings)
      ensures className == ClassName(settings)
      ensures Valid()
    {
      settings := Initial(stored);
      className := ClassName(Initial(stored));
      storage := Persist(stored, Initial(stored));
      PersistThenLoad(stored, Initial(stored));
    }

    /** The effect that runs after the settings change. */
    method Sync()
      requires NonBlank(settings)
      modifies this
      ensures settings == old(settings)
      ensures className == ClassName(settings)
      ensures storage == Persist(old(storage), settings)
      ensures Valid()
    {
      className := ClassName(settings);
      storage := Persist(storage, settings);
      PersistThenLoad(old(storage), settings);
    }

    /** `toggleTheme`, followed by the effect its change triggers. */
    method ToggleTheme()
      requires Valid()
      modifies this
      ensures settings == old(settings).(theme := NextTheme(old(settings).theme))
      ensures settings != old(settings)
      ensures className == ClassName(settings)
      ensures storage == Persist(old(storage), settings)
      ensures Valid()
    {
      settings := settings.(theme := NextTheme(settings.theme));
      Sync();
    }

    /** `cycleFontSize`, followed by the effect its change triggers. */
    method CycleFontSize()
      requires Valid()
      modifies this
      ensures settings == old(settings).(fontSize := NextFontSize(old(settings).fontSize))
      ensures settings != old(settings)
      ensures className == ClassName(settings)
      ensures storage == Persist(old(storage), settings)
      ensures Valid()
    {
      settings := settings.(fontSize := NextFontSize(settings.fontSize));
      Sync();
    }

    /** `toggleContrast`, followed by the effect its change triggers. */
    method ToggleContrast()
      requires Valid()
      modifies this
      ensures settings == old(settings).(contrast := NextContrast(old(settings).contrast))
      ensures settings != old(settings)
      ensures className == ClassName(settings)
      ensures storage == Persist(old(storage), settings)
      ensures Valid()
    {
      settings := settings.(contrast := NextContrast(settings.contrast));
      Sync();
    }
  }

  /** The message `useTheme` throws outside a provider. */
  const OutsideProvider := "useTheme debe usarse dentro de ThemeProvider"

  /** What `useTheme` gives a component: the provider's settings, or a thrown error. */
  datatype Hook = Found(settings: Settings) | Thrown(message: string)

  /** `useTheme`, given the nearest provider's settings if there is one. */
  function UseTheme(context: Option<Settings>): (r: Hook)
    ensures r.Thrown? <==> context.None?
    ensures r.Thrown? ==> r.message == OutsideProvider
    ensures r.Found? ==> r.settings == context.value
  {
    if context.None? then Thrown(OutsideProvider) else Found(context.value)
  }
}
