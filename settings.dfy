/** The preference store of `contexts/SettingsContext.tsx`: theme, post layout
    and language, each resolved at start-up through a fallback chain (stored
    value, browser hint, hardcoded default), each persisted under its own key,
    and the translation lookup with its English fallback. */
module Settings {
  import opened Wrappers
  import opened Types
  import JsString

  /** `localStorage`, as a key-to-string map: `getItem` of a missing key is `null`. */
  type Storage = map<string, string>

  /** What a browser window offers at start-up: its `localStorage`, whether
      `matchMedia('(prefers-color-scheme: dark)')` matches, and `navigator.language`. */
  datatype Window = Window(storage: Storage, prefersDark: bool, navigatorLanguage: string)

  /** The `i18n/translations` module, which is not part of this model: the keys of
      `availableLanguages` and the table of strings per language and key. */
  datatype Catalog = Catalog(available: set<string>, translations: map<string, map<string, string>>)

  const ThemeKey: string := "theme"
  const PostLayoutKey: string := "postLayout"
  const LanguageKey: string := "language"
  const DefaultLanguage: string := "en"

  /** The root element classes the theme effect removes before adding one back. */
  const ThemeClasses: set<string> := {"light", "dark"}

  /** `localStorage.getItem(key)`. */
  function GetItem(storage: Storage, key: string): (r: Option<string>)
    ensures r.Some? <==> key in storage
    ensures r.Some? ==> r.value == storage[key]
  {
    if key in storage then Some(storage[key]) else None
  }

  /** JavaScript truthiness of a `getItem` result: `null` and `""` are falsy. */
  predicate Truthy(item: Option<string>) {
    item.Some? && item.value != ""
  }

  /** `getInitialTheme`; `None` stands for `typeof window === 'undefined'`. */
  function InitialTheme(w: Option<Window>): Theme {
    match w
    case None => Dark
    case Some(win) =>
      var stored := GetItem(win.storage, ThemeKey);
      if Truthy(stored) && ParseTheme(stored.value).Some? then ParseTheme(stored.value).value
      else if win.prefersDark then Dark
      else Light
  }

  /** A stored `'light'` or `'dark'` is returned; otherwise the theme is dark
      exactly when the system prefers dark; with no window it is dark. */
  lemma InitialThemeResolution(w: Option<Window>)
    ensures w.None? ==> InitialTheme(w) == Dark
    ensures w.Some? && ThemeKey in w.value.storage && ParseTheme(w.value.storage[ThemeKey]).Some? ==>
              ThemeValue(InitialTheme(w)) == w.value.storage[ThemeKey]
    ensures w.Some? && (ThemeKey !in w.value.storage || ParseTheme(w.value.storage[ThemeKey]).None?) ==>
              (InitialTheme(w) == Dark <==> w.value.prefersDark)
  {
  }

  /** `getInitialLanguage`. */
  function InitialLanguage(c: Catalog, w: Option<Window>): string {
    match w
    case None => DefaultLanguage
    case Some(win) =>
      var stored := GetItem(win.storage, LanguageKey);
      if Truthy(stored) && stored.value in c.available then stored.value
      else
        var browser := JsString.BeforeFirstDash(win.navigatorLanguage);
        if browser in c.available then browser else DefaultLanguage
  }

  /** A stored supported language wins; otherwise the browser locale's text
      before its first `-`, when supported; otherwise `'en'`. The result is
      always supported or `'en'`, so an unsupported stored value is never returned. */
  lemma InitialLanguageResolution(c: Catalog, w: Option<Window>)
    ensures w.None? ==> InitialLanguage(c, w) == "en"
    ensures InitialLanguage(c, w) in c.available || InitialLanguage(c, w) == "en"
    ensures w.Some? && LanguageKey in w.value.storage && w.value.storage[LanguageKey] != "" &&
            w.value.storage[LanguageKey] in c.available ==>
              InitialLanguage(c, w) == w.value.storage[LanguageKey]
    ensures w.Some? && !(LanguageKey in w.value.storage && w.value.storage[LanguageKey] != "" &&
                         w.value.storage[LanguageKey] in c.available) ==>
              var b := JsString.BeforeFirstDash(w.value.navigatorLanguage);
              InitialLanguage(c, w) == (if b in c.available then b else "en")
  {
  }

  /** An unsupported stored language is ignored: the result is what the
      browser rule gives when nothing is stored. */
  lemma UnsupportedStoredLanguageIgnored(c: Catalog, storage: Storage, dark: bool, locale: string)
    requires LanguageKey in storage && storage[LanguageKey] !in c.available
    ensures InitialLanguage(c, Some(Window(storage, dark, locale))) ==
            InitialLanguage(c, Some(Window(storage - {LanguageKey}, dark, locale)))
  {
  }

  /** The `postLayout` state initialiser: any non-empty stored string is used
      as it is, without checking it against `PostLayout`; otherwise `'comfortable'`. */
  function InitialPostLayout(storage: Storage): string {
    if Truthy(GetItem(storage, PostLayoutKey)) then storage[PostLayoutKey]
    else PostLayoutValue(Comfortable)
  }

  /** The layout slot is never empty, keeps any non-empty stored string, and
      falls back to `'comfortable'` when nothing (or `""`) is stored. */
  lemma InitialPostLayoutResolution(storage: Storage)
    ensures InitialPostLayout(storage) != ""
    ensures PostLayoutKey in storage && storage[PostLayoutKey] != "" ==> InitialPostLayout(storage) == storage[PostLayoutKey]
    ensures PostLayoutKey !in storage || storage[PostLayoutKey] == "" ==> InitialPostLayout(storage) == "comfortable"
  {
  }

  /** `translations.en` defines the key type, so English has every key. */
  predicate HasKey(c: Catalog, key: string) {
    DefaultLanguage in c.translations && key in c.translations[DefaultLanguage]
  }

  /** `t(key)`: `translations[language]?.[key] || translations.en[key]`. */
  function Translate(c: Catalog, language: string, key: string): string
    requires HasKey(c, key)
  {
    var own := if language in c.translations && key in c.translations[language]
               then c.translations[language][key] else "";
    if own != "" then own else c.translations[DefaultLanguage][key]
  }

  /** The lookup returns the current language's string when present and
      non-empty and the English string otherwise; so it is empty only when the
      English string itself is empty. */
  lemma TranslateFallsBackToEnglish(c: Catalog, language: string, key: string)
    requires HasKey(c, key)
    ensures var r := Translate(c, language, key);
            var en := c.translations[DefaultLanguage][key];
            (language in c.translations && key in c.translations[language] && c.translations[language][key] != "" ==>
              r == c.translations[language][key]) &&
            (!(language in c.translations && key in c.translations[language] && c.translations[language][key] != "") ==>
              r == en) &&
            (r == "" ==> en == "") &&
            (language == DefaultLanguage ==> r == en)
  {
  }

  /** What was written under the three keys is what start-up reads back:
      any theme, any non-empty layout, and any supported non-empty language. */
  lemma {:induction false} PersistedSettingsRestore(c: Catalog, storage: Storage, dark: bool, locale: string,
                                                    theme: Theme, layout: string, language: string)
    requires layout != "" && language != "" && language in c.available
    ensures var st := storage[ThemeKey := ThemeValue(theme)][PostLayoutKey := layout][LanguageKey := language];
            var w := Window(st, dark, locale);
            InitialTheme(Some(w)) == theme &&
            InitialPostLayout(st) == layout &&
            InitialLanguage(c, Some(w)) == language
  {
    var st := storage[ThemeKey := ThemeValue(theme)][PostLayoutKey := layout][LanguageKey := language];
    assert st[ThemeKey] == ThemeValue(theme);
    assert st[PostLayoutKey] == layout;
  }

  /** The `SettingsProvider`: its three `useState` slots, the storage and the
      root element's class list its effects write, and the catalog it reads. */
  class SettingsProvider {
    const catalog: Catalog
    var theme: Theme
    var postLayout: string
    var language: string
    var storage: Storage
    var rootClasses: set<string>

    /** The effects have run: each axis is persisted under its key and the root
        element carries exactly the current theme's class of the two. */
    ghost predicate Valid()
      reads this
    {
      && ThemeKey in storage && storage[ThemeKey] == ThemeValue(theme)
      && PostLayoutKey in storage && storage[PostLayoutKey] == postLayout
      && LanguageKey in storage && storage[LanguageKey] == language
      && rootClasses * ThemeClasses == {ThemeValue(theme)}
      && postLayout != ""
    }

    /** Mounting: the three initialisers, then the three effects. */
    constructor (c: Catalog, w: Window, initialClasses: set<string>)
      ensures Valid() && catalog == c
      ensures theme == InitialTheme(Some(w))
      ensures postLayout == InitialPostLayout(w.storage)
      ensures language == InitialLanguage(c, Some(w))
      ensures storage == w.storage[ThemeKey := ThemeValue(theme)][PostLayoutKey := postLayout][LanguageKey := language]
      ensures rootClasses == initialClasses - ThemeClasses + {ThemeValue(theme)}
    {
      catalog := c;
      theme := InitialTheme(Some(w));
      postLayout := InitialPostLayout(w.storage);
      language := InitialLanguage(c, Some(w));
      storage := w.storage;
      rootClasses := initialClasses;
      InitialPostLayoutResolution(w.storage);
      new;
      ApplyTheme();
      storage := storage[PostLayoutKey := postLayout];
      storage := storage[LanguageKey := language];
    }

    /** The theme effect's step from an arbitrary state. */
    method ApplyTheme()
      modifies this
      ensures theme == old(theme) && postLayout == old(postLayout) && language == old(language)
      ensures storage == old(storage)[ThemeKey := ThemeValue(theme)]
      ensures rootClasses == old(rootClasses) - ThemeClasses + {ThemeValue(theme)}
      ensures rootClasses * ThemeClasses == {ThemeValue(theme)}
    {
      rootClasses := rootClasses - ThemeClasses;
      rootClasses := rootClasses + {ThemeValue(theme)};
      storage := storage[ThemeKey := ThemeValue(theme)];
    }

    /** `setTheme` and the theme effect: only the theme axis changes. */
    method SetTheme(newTheme: Theme)
      requires Valid()
      modifies this
      ensures Valid()
      ensures theme == newTheme && postLayout == old(postLayout) && language == old(language)
      ensures storage == old(storage)[ThemeKey := ThemeValue(newTheme)]
      ensures rootClasses == old(rootClasses) - ThemeClasses + {ThemeValue(newTheme)}
    {
      theme := newTheme;
      ApplyTheme();
    }

    /** `setPostLayout` and the layout effect: only the layout axis changes. */
    method SetPostLayout(newLayout: PostLayout)
      requires Valid()
      modifies this
      ensures Valid()
      ensures postLayout == PostLayoutValue(newLayout) && theme == old(theme) && language == old(language)
      ensures storage == old(storage)[PostLayoutKey := postLayout]
      ensures rootClasses == old(rootClasses)
    {
      postLayout := PostLayoutValue(newLayout);
      storage := storage[PostLayoutKey := postLayout];
    }

    /** `setLanguage` and the language effect: only the language axis changes.
        The `Language` type admits only supported languages. */
    method SetLanguage(newLanguage: string)
      requires Valid() && newLanguage in catalog.available
      modifies this
      ensures Valid()
      ensures language == newLanguage && theme == old(theme) && postLayout == old(postLayout)
      ensures storage == old(storage)[LanguageKey := newLanguage]
      ensures rootClasses == old(rootClasses)
    {
      language := newLanguage;
      storage := storage[LanguageKey := language];
    }
  }

  /** Restarting from what a provider persisted restores each of its axes
      (the language when it is a supported, non-empty one). */
  lemma RestartRestores(p: SettingsProvider, dark: bool, locale: string)
    requires p.Valid()
    ensures var w := Window(p.storage, dark, locale);
            InitialTheme(Some(w)) == p.theme &&
            InitialPostLayout(p.storage) == p.postLayout &&
            (p.language in p.catalog.available && p.language != "" ==> InitialLanguage(p.catalog, Some(w)) == p.language)
  {
  }
}
