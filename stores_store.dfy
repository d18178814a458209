/** The store-directory state container (src/store/storesStore.ts): the demo
    catalog, the filter criteria with their setters and toggles, the simulated
    fetch, the subset the persist middleware keeps, and the two selectors. */
module StoresStore {
  import opened JsBuiltins

  /** A store's floor is typed `1 | 2 | 3` in the source. */
  type FloorNumber = f: int | 1 <= f <= 3 witness 1

  datatype Store = Store(
    id: int,
    name: string,
    category: string,
    floor: FloorNumber,
    isNew: Option<bool>,
    hasPromotions: Option<bool>,
    hasLoyaltyProgram: Option<bool>,
    temporarilyClosed: Option<bool>,
    logoUrl: Option<string>,
    description: Option<string>)

  datatype ViewMode = List | Map

  /** A catalog entry with every optional flag and the logo absent. */
  function Entry(id: int, name: string, category: string, floor: FloorNumber, description: string): Store {
    Store(id, name, category, floor, None, None, None, None, None, Some(description))
  }

  /** The static demo catalog (`demoStores`). */
  function DemoStores(): seq<Store> {
    [ Entry(1, "Zara", "womenClothing", 1, "Популярный бренд одежды для женщин").(hasPromotions := Some(true)),
      Entry(2, "Adidas", "sportswear", 2, "Спортивная одежда и обувь").(hasLoyaltyProgram := Some(true)),
      Entry(3, "H&M", "womenClothing", 1, "Модная одежда по доступным ценам"),
      Entry(4, "Samsung", "appliances", 3, "Электроника и техника"),
      Entry(5, "Apple Store", "appliances", 2, "Официальный магазин техники Apple").(isNew := Some(true)),
      Entry(6, "Nike", "sportswear", 2, "Кроссовки и спортивная одежда"),
      Entry(7, "Lego", "toys", 3, "Конструкторы и игрушки для детей").(hasPromotions := Some(true)),
      Entry(8, "Bershka", "womenClothing", 1, "Молодежная модная одежда"),
      Entry(9, "Calvin Klein", "underwear", 2, "Нижнее белье и аксессуары"),
      Entry(10, "Xiaomi", "appliances", 3, "Смартфоны и умные устройства").(temporarilyClosed := Some(true)),
      Entry(11, "Mango", "womenClothing", 1, "Элегантная женская одежда"),
      Entry(12, "Hugo Boss", "menClothing", 2, "Премиальная мужская одежда") ]
  }

  /** Catalog invariant: ids are unique and every category is non-empty. */
  predicate WellFormedCatalog(stores: seq<Store>) {
    && (forall i, j :: 0 <= i < j < |stores| ==> stores[i].id != stores[j].id)
    && (forall i :: 0 <= i < |stores| ==> stores[i].category != "")
  }

  lemma DemoStoresWellFormed()
    ensures |DemoStores()| == 12
    ensures WellFormedCatalog(DemoStores())
  {
    var d := DemoStores();
    forall i, j | 0 <= i < j < |d| ensures d[i].id != d[j].id {
      assert d[i].id == i + 1 && d[j].id == j + 1;
    }
  }

  /** The data fields of the store's state (everything but the actions). */
  datatype StoresState = StoresState(
    stores: seq<Store>,
    isLoading: bool,
    searchTerm: string,
    activeCategory: Option<string>,
    activeFloor: Option<int>,
    viewMode: ViewMode,
    showOnlyNew: bool,
    showOnlyWithPromotions: bool,
    showOnlyWithLoyalty: bool)

  /** The state the store is created with, before rehydration. */
  function InitialState(): StoresState {
    StoresState(DemoStores(), false, "", None, None, List, false, false, false)
  }

  // ---------------------------------------------------------------------------
  // Persistence

  /** The JSON object kept under the 'stores-storage' key. */
  datatype Persisted = Persisted(activeCategory: Option<string>, activeFloor: Option<int>, viewMode: ViewMode)

  /** `partialize`: the part of the state that survives a reload. */
  function Partialize(s: StoresState): Persisted {
    Persisted(s.activeCategory, s.activeFloor, s.viewMode)
  }

  /** The state after creation: the initial state, with the saved subset merged
      over it when the storage holds one. */
  function Rehydrate(saved: Option<Persisted>): StoresState {
    match saved
    case None => InitialState()
    case Some(p) => InitialState().(activeCategory := p.activeCategory, activeFloor := p.activeFloor, viewMode := p.viewMode)
  }

  /** Saving and reloading gives back exactly the three persisted fields; the search
      term, the toggles, the catalog and the loading flag start over. */
  lemma PersistRoundTrip(s: StoresState)
    ensures Partialize(Rehydrate(Some(Partialize(s)))) == Partialize(s)
    ensures Rehydrate(Some(Partialize(s))).searchTerm == ""
    ensures !Rehydrate(Some(Partialize(s))).showOnlyNew
    ensures !Rehydrate(Some(Partialize(s))).showOnlyWithPromotions
    ensures !Rehydrate(Some(Partialize(s))).showOnlyWithLoyalty
    ensures Rehydrate(Some(Partialize(s))).stores == DemoStores()
    ensures !Rehydrate(Some(Partialize(s))).isLoading
  {
  }

  // ---------------------------------------------------------------------------
  // The filtered-stores selector

  /** Name search: the lower-cased name contains the lower-cased term. */
  predicate MatchesSearch(store: Store, searchTerm: string) {
    Includes(ToLowerCase(store.name), ToLowerCase(searchTerm))
  }

  /** A null or empty category is falsy and filters nothing. */
  predicate MatchesCategory(store: Store, activeCategory: Option<string>) {
    match activeCategory
    case None => true
    case Some(c) => c == "" || store.category == c
  }

  /** A null or zero floor is falsy and filters nothing. */
  predicate MatchesFloor(store: Store, activeFloor: Option<int>) {
    match activeFloor
    case None => true
    case Some(f) => f == 0 || store.floor == f
  }

  /** A toggle that is on demands that the store's flag be truthy. */
  predicate MatchesFlag(showOnly: bool, flag: Option<bool>) {
    showOnly ==> Truthy(flag)
  }

  /** The predicate `useFilteredStores` passes to `filter`. */
  predicate Matches(s: StoresState, store: Store) {
    && MatchesSearch(store, s.searchTerm)
    && MatchesCategory(store, s.activeCategory)
    && MatchesFloor(store, s.activeFloor)
    && MatchesFlag(s.showOnlyNew, store.isNew)
    && MatchesFlag(s.showOnlyWithPromotions, store.hasPromotions)
    && MatchesFlag(s.showOnlyWithLoyalty, store.hasLoyaltyProgram)
  }

  /** `useFilteredStores`: the catalog entries that pass every active criterion,
      in catalog order, each as many times as the catalog holds it. */
  function FilteredStores(s: StoresState): (r: seq<Store>)
    ensures IsSubsequence(r, s.stores)
    ensures multiset(r) <= multiset(s.stores)
    ensures forall x :: x in r <==> x in s.stores && Matches(s, x)
    ensures forall x :: multiset(r)[x] == if Matches(s, x) then multiset(s.stores)[x] else 0
  {
    var r := Filter(s.stores, x => Matches(s, x));
    SubsequenceMultiset(r, s.stores);
    r
  }

  /** An empty search term matches every name. */
  lemma EmptySearchMatchesEveryName(store: Store)
    ensures MatchesSearch(store, "")
  {
    IncludesEmpty(ToLowerCase(store.name));
  }

  /** The search ignores the case of the term. */
  lemma SearchIgnoresTermCase(store: Store, term: string)
    ensures MatchesSearch(store, term) == MatchesSearch(store, ToLowerCase(term))
  {
    ToLowerCaseIdempotent(term);
  }

  /** With no criterion active the selector returns the whole catalog. */
  lemma NoCriteriaKeepsAll(s: StoresState)
    requires s.searchTerm == "" && s.activeCategory == None && s.activeFloor == None
    requires !s.showOnlyNew && !s.showOnlyWithPromotions && !s.showOnlyWithLoyalty
    ensures FilteredStores(s) == s.stores
  {
    forall x | x in s.stores ensures Matches(s, x) {
      EmptySearchMatchesEveryName(x);
    }
    FilterKeepsAll(s.stores, x => Matches(s, x));
  }

  /** An empty category is as good as no category filter. */
  lemma EmptyCategoryIsNoFilter(s: StoresState)
    ensures FilteredStores(s.(activeCategory := Some(""))) == FilteredStores(s.(activeCategory := None))
  {
    var a, b := s.(activeCategory := Some("")), s.(activeCategory := None);
    FilterCongruent(s.stores, x => Matches(a, x), x => Matches(b, x));
  }

  /** Floor 0 is as good as no floor filter. */
  lemma ZeroFloorIsNoFilter(s: StoresState)
    ensures FilteredStores(s.(activeFloor := Some(0))) == FilteredStores(s.(activeFloor := None))
  {
    var a, b := s.(activeFloor := Some(0)), s.(activeFloor := None);
    FilterCongruent(s.stores, x => Matches(a, x), x => Matches(b, x));
  }

  /** A floor other than 0 that no store can be on (4, say) empties the result
      rather than failing. */
  lemma OutOfRangeFloorIsEmpty(s: StoresState, f: int)
    requires f < 0 || f > 3
    ensures FilteredStores(s.(activeFloor := Some(f))) == []
  {
    var t := s.(activeFloor := Some(f));
    FilterKeepsNone(s.stores, x => Matches(t, x));
  }

  /** Switching `showOnlyNew` on can only remove stores from the result. */
  lemma ShowOnlyNewShrinks(s: StoresState)
    ensures IsSubsequence(FilteredStores(s.(showOnlyNew := true)), FilteredStores(s.(showOnlyNew := false)))
  {
    var on, off := s.(showOnlyNew := true), s.(showOnlyNew := false);
    FilterAntitone(s.stores, x => Matches(on, x), x => Matches(off, x));
  }

  /** Switching `showOnlyWithPromotions` on can only remove stores from the result. */
  lemma ShowOnlyWithPromotionsShrinks(s: StoresState)
    ensures IsSubsequence(FilteredStores(s.(showOnlyWithPromotions := true)), FilteredStores(s.(showOnlyWithPromotions := false)))
  {
    var on, off := s.(showOnlyWithPromotions := true), s.(showOnlyWithPromotions := false);
    FilterAntitone(s.stores, x => Matches(on, x), x => Matches(off, x));
  }

  /** Switching `showOnlyWithLoyalty` on can only remove stores from the result. */
  lemma ShowOnlyWithLoyaltyShrinks(s: StoresState)
    ensures IsSubsequence(FilteredStores(s.(showOnlyWithLoyalty := true)), FilteredStores(s.(showOnlyWithLoyalty := false)))
  {
    var on, off := s.(showOnlyWithLoyalty := true), s.(showOnlyWithLoyalty := false);
    FilterAntitone(s.stores, x => Matches(on, x), x => Matches(off, x));
  }

  /** A store whose flag is absent is treated as if the flag were false. */
  lemma AbsentFlagCountsAsFalse(s: StoresState, store: Store)
    requires store in s.stores
    ensures s.showOnlyNew && store.isNew == None ==> store !in FilteredStores(s)
    ensures s.showOnlyWithPromotions && store.hasPromotions == None ==> store !in FilteredStores(s)
    ensures s.showOnlyWithLoyalty && store.hasLoyaltyProgram == None ==> store !in FilteredStores(s)
  {
  }

  // ---------------------------------------------------------------------------
  // A two-store catalog: Zara (floor 1, promotions) and Adidas (floor 2,
  // loyalty programme), the first two demo entries.

  function ZaraAndAdidas(): seq<Store> {
    DemoStores()[..2]
  }

  lemma ZaraAndAdidasShape()
    ensures ZaraAndAdidas() == [DemoStores()[0], DemoStores()[1]]
    ensures ZaraAndAdidas()[1..] == [DemoStores()[1]]
  {
  }

  /** With no criterion both stores are listed, in catalog order. */
  lemma ScenarioNoCriteria()
    ensures FilteredStores(InitialState().(stores := ZaraAndAdidas())) == ZaraAndAdidas()
  {
    NoCriteriaKeepsAll(InitialState().(stores := ZaraAndAdidas()));
  }

  /** Category "sportswear" keeps only Adidas. */
  lemma ScenarioCategory()
    ensures FilteredStores(InitialState().(stores := ZaraAndAdidas(), activeCategory := Some("sportswear")))
            == [DemoStores()[1]]
  {
    ZaraAndAdidasShape();
    EmptySearchMatchesEveryName(DemoStores()[1]);
  }

  /** The loyalty toggle keeps only Adidas. */
  lemma ScenarioLoyalty()
    ensures FilteredStores(InitialState().(stores := ZaraAndAdidas(), showOnlyWithLoyalty := true))
            == [DemoStores()[1]]
  {
    ZaraAndAdidasShape();
    EmptySearchMatchesEveryName(DemoStores()[1]);
  }

  /** The search term "za" keeps only Zara. */
  lemma ScenarioSearch()
    ensures FilteredStores(InitialState().(stores := ZaraAndAdidas(), searchTerm := "za")) == [DemoStores()[0]]
  {
    ZaraAndAdidasShape();
    assert ToLowerCase("za") == "za";
    assert ToLowerCase(DemoStores()[0].name) == "zara";
    assert ToLowerCase(DemoStores()[1].name) == "adidas";
    assert OccursAt("zara", "za", 0);
    forall i | OccursAt("adidas", "za", i) ensures "adidas"[i] == 'z' {
      assert "adidas"[i..i + 2][0] == 'z';
    }
    assert !Includes("adidas", "za");
  }

  // ---------------------------------------------------------------------------
  // The categories selector

  function Categories(stores: seq<Store>): seq<string> {
    seq(|stores|, i requires 0 <= i < |stores| => stores[i].category)
  }

  /** `useStoreCategories`: each category that occurs in the catalog, once. */
  function StoreCategories(stores: seq<Store>): (r: seq<string>)
    ensures NoDuplicates(r)
    ensures forall c :: c in r <==> exists x :: x in stores && x.category == c
  {
    var cs := Categories(stores);
    assert forall c :: c in cs <==> exists x :: x in stores && x.category == c by {
      forall c | c in cs ensures exists x :: x in stores && x.category == c {
        var i :| 0 <= i < |cs| && cs[i] == c;
        assert stores[i] in stores;
      }
      forall x | x in stores ensures x.category in cs {
        var i :| 0 <= i < |stores| && stores[i] == x;
        assert cs[i] == x.category;
      }
    }
    Distinct(cs)
  }

  /** The categories come in the order of the first store that carries each. */
  lemma StoreCategoriesInFirstOccurrenceOrder(stores: seq<Store>)
    ensures forall i, j :: 0 <= i < j < |StoreCategories(stores)| ==>
              FirstIndex(Categories(stores), StoreCategories(stores)[i]) < FirstIndex(Categories(stores), StoreCategories(stores)[j])
  {
    DistinctInFirstOccurrenceOrder(Categories(stores));
  }

  // ---------------------------------------------------------------------------
  // The store itself

  /** The zustand store: its data fields, and the 'stores-storage' entry that the
      persist middleware rewrites after every `set`. */
  class DirectoryStore {
    var stores: seq<Store>
    var isLoading: bool
    var searchTerm: string
    var activeCategory: Option<string>
    var activeFloor: Option<int>
    var viewMode: ViewMode
    var showOnlyNew: bool
    var showOnlyWithPromotions: bool
    var showOnlyWithLoyalty: bool
    var saved: Option<Persisted>
    /** How many `fetchStores` calls have started and not yet completed. */
    ghost var pendingFetches: nat

    function State(): StoresState
      reads this
    {
      StoresState(stores, isLoading, searchTerm, activeCategory, activeFloor, viewMode,
                  showOnlyNew, showOnlyWithPromotions, showOnlyWithLoyalty)
    }

    /** Reloading from the storage entry would give back the persisted fields as they are now. */
    ghost predicate Valid()
      reads this
    {
      Partialize(Rehydrate(saved)) == Partialize(State())
    }

    /** Creation: the initial state, rehydrated from whatever the storage holds. */
    constructor (storage: Option<Persisted>)
      ensures State() == Rehydrate(storage) && saved == storage
      ensures pendingFetches == 0
      ensures Valid()
    {
      var s := Rehydrate(storage);
      stores, isLoading, searchTerm := s.stores, s.isLoading, s.searchTerm;
      activeCategory, activeFloor, viewMode := s.activeCategory, s.activeFloor, s.viewMode;
      showOnlyNew, showOnlyWithPromotions, showOnlyWithLoyalty := s.showOnlyNew, s.showOnlyWithPromotions, s.showOnlyWithLoyalty;
      saved := storage;
      pendingFetches := 0;
    }

    /** What the persist middleware does after each `set`. */
    method Persist()
      modifies this`saved
      ensures saved == Some(Partialize(State()))
      ensures Valid()
    {
      saved := Some(Persisted(activeCategory, activeFloor, viewMode));
    }

    method SetSearchTerm(term: string)
      modifies this
      ensures State() == old(State()).(searchTerm := term)
      ensures saved == Some(Partialize(State())) && Valid()
      ensures pendingFetches == old(pendingFetches)
    {
      searchTerm := term;
      Persist();
    }

    method SetActiveCategory(category: Option<string>)
      modifies this
      ensures State() == old(State()).(activeCategory := category)
      ensures saved == Some(Partialize(State())) && Valid()
      ensures pendingFetches == old(pendingFetches)
    {
      activeCategory := category;
      Persist();
    }

    method SetActiveFloor(floor: Option<int>)
      modifies this
      ensures State() == old(State()).(activeFloor := floor)
      ensures saved == Some(Partialize(State())) && Valid()
      ensures pendingFetches == old(pendingFetches)
    {
      activeFloor := floor;
      Persist();
    }

    method SetViewMode(mode: ViewMode)
      modifies this
      ensures State() == old(State()).(viewMode := mode)
      ensures saved == Some(Partialize(State())) && Valid()
      ensures pendingFetches == old(pendingFetches)
    {
      viewMode := mode;
      Persist();
    }

    method ToggleShowOnlyNew()
      modifies this
      ensures State() == old(State()).(showOnlyNew := !old(showOnlyNew))
      ensures saved == Some(Partialize(State())) && Valid()
      ensures pendingFetches == old(pendingFetches)
    {
      showOnlyNew := !showOnlyNew;
      Persist();
    }

    method ToggleShowOnlyWithPromotions()
      modifies this
      ensures State() == old(State()).(showOnlyWithPromotions := !old(showOnlyWithPromotions))
      ensures saved == Some(Partialize(State())) && Valid()
      ensures pendingFetches == old(pendingFetches)
    {
      showOnlyWithPromotions := !showOnlyWithPromotions;
      Persist();
    }

    method ToggleShowOnlyWithLoyalty()
      modifies this
      ensures State() == old(State()).(showOnlyWithLoyalty := !old(showOnlyWithLoyalty))
      ensures saved == Some(Partialize(State())) && Valid()
      ensures pendingFetches == old(pendingFetches)
    {
      showOnlyWithLoyalty := !showOnlyWithLoyalty;
      Persist();
    }

    /** The synchronous first half of `fetchStores`. */
    method BeginFetch()
      modifies this
      ensures State() == old(State()).(isLoading := true)
      ensures saved == Some(Partialize(State())) && Valid()
      ensures pendingFetches == old(pendingFetches) + 1
    {
      isLoading := true;
      pendingFetches := pendingFetches + 1;
      Persist();
    }

    /** The half of `fetchStores` that runs when the simulated delay of a started
        fetch has elapsed. Overlapping fetches are not guarded against: the first
        completion already clears `isLoading`, and each writes the same end state. */
    method CompleteFetch()
      requires pendingFetches > 0
      modifies this
      ensures State() == old(State()).(stores := DemoStores(), isLoading := false)
      ensures saved == Some(Partialize(State())) && Valid()
      ensures pendingFetches == old(pendingFetches) - 1
    {
      stores, isLoading := DemoStores(), false;
      pendingFetches := pendingFetches - 1;
      Persist();
    }
  }
}
