/** The application preference store (src/store/index.ts): the interface
    language and the dark-mode flag, both written through to the browser's
    key-value storage and read back from it when the store is created. */
module AppStore {

  const LanguageKey: string := "i18nextLng"
  const ThemeKey: string := "theme"
  const DefaultLanguage: string := "ru"

  /** `localStorage.getItem('i18nextLng') || 'ru'`: a missing or empty entry
      falls back to Russian. */
  function StoredLanguage(storage: map<string, string>): (language: string)
    ensures language != ""
    ensures LanguageKey in storage && storage[LanguageKey] != "" ==> language == storage[LanguageKey]
    ensures LanguageKey !in storage || storage[LanguageKey] == "" ==> language == DefaultLanguage
  {
    if LanguageKey in storage && storage[LanguageKey] != "" then storage[LanguageKey] else DefaultLanguage
  }

  /** `localStorage.getItem('theme') === 'dark'`. */
  function StoredDarkMode(storage: map<string, string>): bool {
    ThemeKey in storage && storage[ThemeKey] == "dark"
  }

  /** The value written under 'theme'. */
  function ThemeValue(dark: bool): string {
    if dark then "dark" else "light"
  }

  /** Writing a theme and reading it back gives the same flag. */
  lemma ThemeRoundTrip(storage: map<string, string>, dark: bool)
    ensures StoredDarkMode(storage[ThemeKey := ThemeValue(dark)]) == dark
  {
  }

  /** Writing a language and reading it back gives it again, unless it is empty. */
  lemma LanguageRoundTrip(storage: map<string, string>, language: string)
    ensures StoredLanguage(storage[LanguageKey := language]) == if language == "" then DefaultLanguage else language
  {
  }

  class Preferences {
    var language: string
    var isDarkMode: bool
    var storage: map<string, string>

    /** Creating the store again from the current storage would restore `isDarkMode`. */
    ghost predicate DarkModeSaved()
      reads this
    {
      StoredDarkMode(storage) == isDarkMode
    }

    /** Creating the store again from the current storage would restore
        `language` whenever it is non-empty. */
    ghost predicate LanguageSaved()
      reads this
    {
      StoredLanguage(storage) == (if language == "" then DefaultLanguage else language)
    }

    /** Creation reads both preferences from the storage. */
    constructor (initial: map<string, string>)
      ensures storage == initial
      ensures language == StoredLanguage(initial) && isDarkMode == StoredDarkMode(initial)
      ensures DarkModeSaved() && LanguageSaved()
    {
      storage := initial;
      language := StoredLanguage(initial);
      isDarkMode := StoredDarkMode(initial);
    }

    /** `setLanguage`: the entry and the state both take the new language. */
    method SetLanguage(l: string)
      modifies this
      ensures language == l && storage == old(storage)[LanguageKey := l]
      ensures isDarkMode == old(isDarkMode)
      ensures LanguageSaved()
      ensures old(DarkModeSaved()) ==> DarkModeSaved()
    {
      storage := storage[LanguageKey := l];
      language := l;
    }

    /** `toggleDarkMode`: the flag flips and the theme entry follows it. */
    method ToggleDarkMode()
      modifies this
      ensures isDarkMode == !old(isDarkMode)
      ensures storage == old(storage)[ThemeKey := ThemeValue(isDarkMode)]
      ensures language == old(language)
      ensures DarkModeSaved()
      ensures old(LanguageSaved()) ==> LanguageSaved()
    {
      var newDarkMode := !isDarkMode;
      storage := storage[ThemeKey := ThemeValue(newDarkMode)];
      isDarkMode := newDarkMode;
    }
  }
}
