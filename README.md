# Shopping-mall directory: a Dafny model of its state logic

This project models the logic inside a shopping mall's web front-end. It covers four parts:

- **The store directory** (`src/store/storesStore.ts`). A zustand store holds a static catalog of twelve demo
  stores and a set of filter criteria: a search term, a category, a floor, three "show only" toggles and a
  view mode (list or map). Setters and toggles overwrite single fields. `fetchStores` simulates a load. The
  persist middleware saves category, floor and view mode under `stores-storage`. Two selectors derive the
  filtered stores and the distinct categories.
- **The floor map** (`src/components/stores/StoresMap.tsx`). It keeps the stores on the selected floor and
  places each one in a three-column grid on a 600 × 400 canvas.
- **The language switcher** (`src/components/layout/LanguageSwitcher.tsx`). A click starts a transition, and
  a timer later changes the language. Two pure functions place the sliding indicator and style each button.
- **The preference store** (`src/store/index.ts`). It holds the interface language and the dark-mode flag.
  Both are written through to the browser's key-value storage and read back when the store is created.

Files:

- `js_builtins.dfy`, module `JsBuiltins`: the JavaScript built-ins that the directory relies on, each with the
  property callers use. This covers `null` and optional properties, truthiness, `Array.prototype.filter`,
  `Array.from(new Set(xs))`, `toLowerCase` and `includes`.
- `stores_store.dfy`, module `StoresStore`:
  - the `Store` record and the demo catalog;
  - the state as a value (`StoresState`);
  - the `partialize` projection and rehydration;
  - the filter predicate and both selectors;
  - the class `DirectoryStore`, whose methods are the store's actions.
- `stores_map.dfy`, module `StoresMap`: `storesByFloor`, the grid arithmetic of `getStorePosition`, and the
  floor tab (class `FloorMap`).
- `language_switcher.dfy`, module `LanguageSwitcher`: the class `Switcher` (the transition state machine),
  `IndicatorPosition` and `TextColor`.
- `app_store.dfy`, module `AppStore`: the class `Preferences`, with the storage as a `map<string, string>` field.

State that the source changes in place is modelled as classes whose methods say exactly what the new state
is. Three of the classes also carry invariants that their methods keep:

- `DirectoryStore` (`Valid()`): reloading from the saved entry would restore the three persisted fields.
- `Switcher` (`Valid()`): a timer is pending exactly while a transition is shown.
- `Preferences` (`DarkModeSaved()` and `LanguageSaved()`): reloading from storage would restore
  `isDarkMode`, and `language` when it is non-empty. Each method re-establishes its own half and keeps
  the other half if it held before.

`FloorMap` has only one field, the selected floor, and needs no invariant.

The model follows the code on these points:

- The filter tests `activeCategory` and `activeFloor` for truthiness. So the empty category and floor 0 filter
  nothing, just as `null` does.
- The persist middleware rewrites the saved entry after every `set`, not only after changes to the three
  persisted fields. The saved content is the same either way.
- `fetchStores` does not guard against overlapping calls. A ghost counter `pendingFetches` records the started
  fetches. Each completion needs one started fetch, and the first completion already clears `isLoading`.

## Model

| member | source | states |
|---|---|---|
| JsBuiltins.Filter | src/store/storesStore.ts:126-147 | `filter` returns a subsequence of its input, no longer than it, holding each element that passes the predicate as many times as the input does and no other element |
| JsBuiltins.SubsequenceMultiset | src/store/storesStore.ts:126 | a subsequence invents nothing and duplicates nothing: its multiset is contained in the original's |
| JsBuiltins.FilterKeepsAll | src/store/storesStore.ts:126 | a filter whose predicate accepts every element returns its input unchanged |
| JsBuiltins.FilterKeepsNone | src/store/storesStore.ts:126 | a filter whose predicate rejects every element returns the empty sequence |
| JsBuiltins.FilterCongruent | src/store/storesStore.ts:126 | predicates that agree on every element give the same filter result |
| JsBuiltins.FilterAntitone | src/store/storesStore.ts:137-139 | filtering by a stronger predicate yields a subsequence of the weaker predicate's result |
| JsBuiltins.FirstIndex | src/store/storesStore.ts:153 | the position of the first occurrence: it holds the value and no earlier position does |
| JsBuiltins.FirstIndexInPrefix | src/store/storesStore.ts:153 | a value's first occurrence in a prefix that contains it is its first occurrence in the whole |
| JsBuiltins.Distinct | src/store/storesStore.ts:153 | `Array.from(new Set(xs))` has no duplicates and contains exactly the values of `xs` |
| JsBuiltins.DistinctInFirstOccurrenceOrder | src/store/storesStore.ts:153 | the distinct values are listed in strictly increasing order of first occurrence |
| JsBuiltins.ToLowerCaseHasNoUpper | src/store/storesStore.ts:128 | lower-casing keeps the length and leaves no upper-case letter |
| JsBuiltins.ToLowerCaseIdempotent | src/store/storesStore.ts:128 | lower-casing twice equals lower-casing once |
| JsBuiltins.OccurrenceShift | src/store/storesStore.ts:128 | if the term does not start the string, it occurs in the string iff it occurs in the string's tail |
| JsBuiltins.Includes | src/store/storesStore.ts:128 | `includes` is true iff some window of the string equals the term |
| JsBuiltins.IncludesEmpty | src/store/storesStore.ts:128 | every string includes the empty string |
| StoresStore.DemoStoresWellFormed | src/store/storesStore.ts:47-60 | the demo catalog has twelve entries, unique ids and non-empty categories |
| StoresStore.PersistRoundTrip | src/store/storesStore.ts:66-74 | reloading a saved snapshot restores category, floor and view mode; search term, toggles, catalog and loading flag take their initial values |
| StoresStore.FilteredStores | src/store/storesStore.ts:126-147 | the result is a subsequence of `stores`; a store is in it iff it is in `stores` and passes every criterion, and it occurs there as often as in `stores` |
| StoresStore.EmptySearchMatchesEveryName | src/store/storesStore.ts:128 | an empty search term matches every name |
| StoresStore.SearchIgnoresTermCase | src/store/storesStore.ts:128 | a search term and its lower-cased form select the same stores |
| StoresStore.NoCriteriaKeepsAll | src/store/storesStore.ts:126-147 | with no criterion active the selector returns the whole catalog, in order |
| StoresStore.EmptyCategoryIsNoFilter | src/store/storesStore.ts:131 | category "" gives the same result as no category filter |
| StoresStore.ZeroFloorIsNoFilter | src/store/storesStore.ts:134 | floor 0 gives the same result as no floor filter |
| StoresStore.OutOfRangeFloorIsEmpty | src/store/storesStore.ts:134 | a non-zero floor outside 1..3 (4, say) gives an empty result, not an error |
| StoresStore.ShowOnlyNewShrinks | src/store/storesStore.ts:137 | turning `showOnlyNew` on yields a subsequence of the result with it off |
| StoresStore.ShowOnlyWithPromotionsShrinks | src/store/storesStore.ts:138 | turning `showOnlyWithPromotions` on yields a subsequence of the result with it off |
| StoresStore.ShowOnlyWithLoyaltyShrinks | src/store/storesStore.ts:139 | turning `showOnlyWithLoyalty` on yields a subsequence of the result with it off |
| StoresStore.AbsentFlagCountsAsFalse | src/store/storesStore.ts:137-139 | with a toggle on, a store whose flag is absent is excluded |
| StoresStore.ScenarioNoCriteria | src/store/storesStore.ts:48-49 | with Zara and Adidas and no criterion, both are listed in catalog order |
| StoresStore.ScenarioCategory | src/store/storesStore.ts:48-49 | with Zara and Adidas, category "sportswear" keeps only Adidas |
| StoresStore.ScenarioLoyalty | src/store/storesStore.ts:48-49 | with Zara and Adidas, the loyalty toggle keeps only Adidas |
| StoresStore.ScenarioSearch | src/store/storesStore.ts:48-49 | with Zara and Adidas, the search term "za" keeps only Zara |
| StoresStore.StoreCategories | src/store/storesStore.ts:151-154 | the category list has no duplicates and contains exactly the categories occurring in `stores` |
| StoresStore.StoreCategoriesInFirstOccurrenceOrder | src/store/storesStore.ts:153 | categories are listed in the order in which the catalog first uses them |
| StoresStore.DirectoryStore.constructor | src/store/storesStore.ts:62-74 | the created state is the initial state with the saved subset merged over it, and the invariant holds |
| StoresStore.DirectoryStore.Persist | src/store/storesStore.ts:103-110 | the saved entry becomes the partialized state, so reloading restores the three persisted fields |
| StoresStore.DirectoryStore.SetSearchTerm | src/store/storesStore.ts:77 | only `searchTerm` changes, to the argument, so repeating the call changes nothing |
| StoresStore.DirectoryStore.SetActiveCategory | src/store/storesStore.ts:78 | only `activeCategory` changes, to the argument, so repeating the call changes nothing |
| StoresStore.DirectoryStore.SetActiveFloor | src/store/storesStore.ts:79 | only `activeFloor` changes, to the argument, so repeating the call changes nothing |
| StoresStore.DirectoryStore.SetViewMode | src/store/storesStore.ts:80 | only `viewMode` changes, to the argument, so repeating the call changes nothing |
| StoresStore.DirectoryStore.ToggleShowOnlyNew | src/store/storesStore.ts:81 | only `showOnlyNew` changes, to its negation, so two calls restore the state |
| StoresStore.DirectoryStore.ToggleShowOnlyWithPromotions | src/store/storesStore.ts:82-84 | only `showOnlyWithPromotions` changes, to its negation, so two calls restore the state |
| StoresStore.DirectoryStore.ToggleShowOnlyWithLoyalty | src/store/storesStore.ts:85-87 | only `showOnlyWithLoyalty` changes, to its negation, so two calls restore the state |
| StoresStore.DirectoryStore.BeginFetch | src/store/storesStore.ts:90-91 | the first step of `fetchStores` sets `isLoading` and nothing else, and counts one more started fetch |
| StoresStore.DirectoryStore.CompleteFetch | src/store/storesStore.ts:94-100 | the completion of a started fetch sets `stores` to the demo catalog and clears `isLoading`, nothing else, and counts one fetch fewer |
| StoresMap.StoresByFloor | src/components/stores/StoresMap.tsx:16 | the stores on the selected floor form a subsequence of the input, containing exactly its stores whose floor equals the selected floor |
| StoresMap.GridSlot | src/components/stores/StoresMap.tsx:27-29 | the column is below 3 and the index equals row × 3 + column |
| StoresMap.BasePosition | src/components/stores/StoresMap.tsx:19-33 | x is 150, 300 or 450, strictly inside the 600-wide canvas; y is positive and below 400 exactly when the index is below 9 |
| StoresMap.BasePositionInjective | src/components/stores/StoresMap.tsx:28-33 | distinct indices get distinct base positions |
| StoresMap.BaseLayout | src/components/stores/StoresMap.tsx:100-102 | one base position per store on the floor, no two alike |
| StoresMap.ParseTabValue | src/components/stores/StoresMap.tsx:50 | parsing a tab's value gives the floor whose `toString` is that value |
| StoresMap.TabValueRoundTrip | src/components/stores/StoresMap.tsx:49-50 | each floor's tab value parses back to the floor |
| StoresMap.FloorMap.constructor | src/components/stores/StoresMap.tsx:13 | the map opens on floor 1 |
| StoresMap.FloorMap.SelectTab | src/components/stores/StoresMap.tsx:50 | the selected floor becomes the tab's number, one of 1..3 |
| LanguageSwitcher.Switcher.constructor | src/components/layout/LanguageSwitcher.tsx:7 | the switcher starts idle, with no timer, on the current language |
| LanguageSwitcher.Switcher.ChangeLanguage | src/components/layout/LanguageSwitcher.tsx:9-12 | a click on the current language or during a transition changes nothing; otherwise the transition starts with the clicked target and the language is unchanged; a pending target cannot be replaced |
| LanguageSwitcher.Switcher.CompleteTransition | src/components/layout/LanguageSwitcher.tsx:13-16 | when the timer fires the language becomes the clicked one, which differs from the old one, and the transition ends |
| LanguageSwitcher.IndicatorPosition | src/components/layout/LanguageSwitcher.tsx:20-27 | the indicator position lies between 0 % and 66.66 % |
| LanguageSwitcher.IndicatorUnderButton | src/components/layout/LanguageSwitcher.tsx:20-26 | the i-th button's language (en, ru, kk) puts the indicator at i × 33.33 % |
| LanguageSwitcher.UnknownLanguageIndicator | src/components/layout/LanguageSwitcher.tsx:26 | a language without a button puts the indicator where ru does |
| LanguageSwitcher.OneButtonHighlighted | src/components/layout/LanguageSwitcher.tsx:30-32 | of the three buttons exactly one is highlighted when the current language is en, ru or kk, and none otherwise |
| AppStore.StoredLanguage | src/store/index.ts:11 | the initial language is the stored `i18nextLng` when present and non-empty, and "ru" otherwise; never empty |
| AppStore.ThemeRoundTrip | src/store/index.ts:16-23 | the theme written for a flag reads back as that flag at creation |
| AppStore.LanguageRoundTrip | src/store/index.ts:11-13 | a language written to storage reads back as itself, or as "ru" when empty |
| AppStore.Preferences.constructor | src/store/index.ts:10-16 | both fields are read from storage, and both reload invariants hold |
| AppStore.Preferences.SetLanguage | src/store/index.ts:12-15 | state and the `i18nextLng` entry both become the argument; no other key and not `isDarkMode` change; the language is saved afterwards and a saved dark mode stays saved |
| AppStore.Preferences.ToggleDarkMode | src/store/index.ts:17-23 | `isDarkMode` is negated and `theme` is written to match it; no other key and not `language` change; dark mode is saved afterwards and a saved language stays saved |

## Left out

- Rendering, animation and styling are not modelled: JSX trees, framer-motion props and Tailwind class strings.
  `TextColor` returns `Highlighted` or `Dimmed` instead of the class strings.
- Real time is not modelled. The 800 ms fetch delay and the 500 ms switch delay are split into two steps each:
  `BeginFetch`/`CompleteFetch` and `ChangeLanguage`/`CompleteTransition`.
- The sin/cos offset of each map marker is not modelled, because it is floating point and purely cosmetic.
  `BasePosition` covers the integer grid part only.
- zustand's persist serialisation is not modelled. The saved entry is a `Persisted` record, and malformed JSON
  is treated as a missing entry.
- i18next is not modelled. The current language is a field of `Switcher`, and in the model only its own
  `CompleteTransition` changes it.
- Switcher: "at most one switch in flight" and "the new language differs from the old one" hold per instance
  only. `LanguageSwitcherSidebar` (src/components/layout/Sidebar.tsx:70-82) is a second instance, with its own
  `isTransitioning`, that writes the same i18n language.
- Preferences: i18next's language detector also caches the language under `i18nextLng`
  (src/utils/i18n.ts:34-37), and a completed switch calls `i18n.changeLanguage`, not `setLanguage`. So in the
  program `language` and the stored entry can differ. The methods therefore do not require
  `LanguageSaved()`, and that write by i18next is not modelled.
- `LanguageSwitcherSidebar` in Sidebar.tsx is not modelled separately. It repeats the same switcher logic and
  differs only in style strings.
- `toLowerCase` changes only the ASCII letters A–Z here. Full Unicode case mapping is not modelled; every
  name in the demo catalog is ASCII.
- `activeFloor` is an integer or null. A `NaN` floor, which is falsy in the source, cannot be represented.
- `ChangeLanguage` assumes the component re-renders between two clicks. So each click sees the
  `isTransitioning` value that the previous click set.
- These are not modelled: the `classList.toggle` on the document root, the DOM scroll and observer helpers, the
  drawer, the router and the button variants.
