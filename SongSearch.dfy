/**
 * The page state of the song searcher (js/song_search.js): the loaded
 * catalogue, the filter-term set, the live query, the Stepmania category
 * order, and what `applyFilter` puts on screen.
 *
 * The screen is modelled as the list of rendered categories, the
 * "no songs found matching your criteria" notice and the loading message,
 * by translation key.
 */
module SongSearch {
  import opened Wrappers
  import opened Text
  import opened Lists
  import opened SongModel
  import opened SongLoader

  /** The text of the loading-message element, by translation key; `NoNotice` is the empty text. */
  datatype Notice = NoNotice | SelectGameTitle | LoadingSongs | NoSongsAvailable

  /** One rendered category: its header name and its songs in display order. */
  datatype CategoryView = CategoryView(name: string, songs: seq<Song>)

  /** What `applyFilter` leaves on screen: the category list, the criteria notice and the loading message. */
  datatype Screen = Screen(categories: seq<CategoryView>, criteriaNotice: bool, message: Notice)

  datatype Source = Folder(path: string) | File(path: string)

  /** `gameDataSources`: three games load a folder, Project Diva a single file. */
  function GameSource(gameName: string): (r: Option<Source>)
    ensures r.Some? <==> gameName in {"Dance Dance Revolution", "Project Diva", "Taiko no Tatsujin", "YARG"}
    ensures r.Some? && r.value.Folder? && r.value.path == StepmaniaFolder <==> gameName == "Dance Dance Revolution"
  {
    if gameName == "Dance Dance Revolution" then Some(Folder(StepmaniaFolder))
    else if gameName == "Project Diva" then Some(File("data/Project Diva/project_diva.json"))
    else if gameName == "Taiko no Tatsujin" then Some(Folder("data/Taiko no Tatsujin/"))
    else if gameName == "YARG" then Some(Folder("data/YARG/"))
    else None
  }

  // ------------------------------------------------------- what is shown

  /** A song of the category survives: rated if an order is recorded, and matching the query and tags. */
  predicate Survives(song: Song, categoryName: string, order: seq<string>, searchTerm: string, tags: set<string>) {
    (|order| > 0 ==> HasDifficultyData(song)) && Matches(song, categoryName, searchTerm, tags)
  }

  /** The songs of one category that `applyFilter` keeps, in catalogue order. */
  function Survivors(songs: seq<Song>, categoryName: string, order: seq<string>, searchTerm: string, tags: set<string>)
    : seq<Song>
  {
    if songs == [] then []
    else
      var rest := Survivors(songs[..|songs| - 1], categoryName, order, searchTerm, tags);
      if Survives(songs[|songs| - 1], categoryName, order, searchTerm, tags) then rest + [songs[|songs| - 1]] else rest
  }

  /**
   * The two filters of `applyFilter`, the difficulty rule once an order is
   * recorded and then the match rule, keep exactly the survivors.
   */
  lemma {:induction false} SurvivorsAreTwoFilters(songs: seq<Song>, categoryName: string, order: seq<string>,
                                                  searchTerm: string, tags: set<string>)
    ensures var pool := if |order| > 0 then Filter(songs, HasDifficultyData) else songs;
            Survivors(songs, categoryName, order, searchTerm, tags)
            == Filter(pool, (song: Song) => Matches(song, categoryName, searchTerm, tags))
  {
    var p := (song: Song) => Matches(song, categoryName, searchTerm, tags);
    if songs != [] {
      var init, last := songs[..|songs| - 1], songs[|songs| - 1];
      SurvivorsAreTwoFilters(init, categoryName, order, searchTerm, tags);
      assert songs == init + [last];
      if |order| > 0 {
        FilterSnoc(init, last, HasDifficultyData);
        FilterSnoc(Filter(init, HasDifficultyData), last, p);
      } else {
        FilterSnoc(init, last, p);
      }
    }
  }

  /** A song survives exactly when it is in the category, rated if an order is recorded, and matches. */
  lemma {:induction false} SurvivorsIff(songs: seq<Song>, categoryName: string, order: seq<string>, searchTerm: string,
                                        tags: set<string>, song: Song)
    ensures song in Survivors(songs, categoryName, order, searchTerm, tags) <==>
      song in songs && Survives(song, categoryName, order, searchTerm, tags)
  {
    if songs != [] {
      var init := songs[..|songs| - 1];
      SurvivorsIff(init, categoryName, order, searchTerm, tags, song);
      assert songs == init + [songs[|songs| - 1]];
    }
  }

  /**
   * `categoriesToRender`: every category with a survivor, holding its
   * survivors as the title comparator sorts them.
   */
  function CategoriesToRender(data: map<string, seq<Song>>, order: seq<string>, searchTerm: string, tags: set<string>)
    : map<string, seq<Song>>
  {
    map c | c in data && Survivors(data[c], c, order, searchTerm, tags) != []
      :: SortWith(Survivors(data[c], c, order, searchTerm, tags), TitleCompare)
  }

  /** A category is rendered exactly when it has a survivor, and then it holds its survivors rearranged. */
  lemma RenderedCategory(data: map<string, seq<Song>>, order: seq<string>, searchTerm: string, tags: set<string>,
                         c: string)
    ensures var m := CategoriesToRender(data, order, searchTerm, tags);
            && (c in m <==> c in data && Survivors(data[c], c, order, searchTerm, tags) != [])
            && (c in m ==> m[c] != [] && multiset(m[c]) == multiset(Survivors(data[c], c, order, searchTerm, tags)))
  {
    var m := CategoriesToRender(data, order, searchTerm, tags);
    if c in m {
      var s := Survivors(data[c], c, order, searchTerm, tags);
      SortWithPermutes(s, TitleCompare);
      assert s[0] in multiset(m[c]);
    }
  }

  /** The Stepmania order applies when it is recorded and names a category on screen. */
  predicate IsStepmania(order: seq<string>, present: set<string>) {
    |order| > 0 && exists c :: c in present && c in order
  }

  /** `stepmaniaCategoryOrder.filter(cat => categoriesToRender.hasOwnProperty(cat))` */
  function ListedPresent(order: seq<string>, present: set<string>): (r: seq<string>)
    ensures forall c :: c in r <==> c in present && c in order
    ensures IsSubsequence(r, order)
  {
    Filter(order, (c: string) => c in present)
  }

  /** Names in strictly ascending collation order. */
  ghost predicate Ascending(names: seq<string>) {
    forall i, j :: 0 <= i < j < |names| ==> StrCompare(names[i], names[j]) < 0
  }

  /**
   * The order of the category headers: the recorded Stepmania order, keeping
   * only categories on screen, or else every category on screen by name.
   */
  ghost predicate CategoryOrder(names: seq<string>, order: seq<string>, present: set<string>) {
    if IsStepmania(order, present) then names == ListedPresent(order, present)
    else Ascending(names) && forall c :: c in names <==> c in present
  }

  function ViewNames(rendered: seq<CategoryView>): (names: seq<string>)
    ensures |names| == |rendered| && forall i :: 0 <= i < |rendered| ==> names[i] == rendered[i].name
  {
    seq(|rendered|, i requires 0 <= i < |rendered| => rendered[i].name)
  }

  /**
   * What `applyFilter` leaves on screen, given the categories to render and
   * whether a query or a term is active: the categories in header order, or,
   * when there are none, the criteria notice if some filter is active and
   * "no songs available" otherwise.
   */
  ghost predicate Displays(
    rendered: seq<CategoryView>, criteriaNotice: bool, message: Notice,
    present: map<string, seq<Song>>, filtering: bool, order: seq<string>)
  {
    if present.Keys == {} then
      && rendered == []
      && if filtering then criteriaNotice && message == NoNotice
         else !criteriaNotice && message == NoSongsAvailable
    else
      && !criteriaNotice && message == NoNotice
      && (forall i :: 0 <= i < |rendered| ==>
            rendered[i].name in present && rendered[i].songs == present[rendered[i].name])
      && CategoryOrder(ViewNames(rendered), order, present.Keys)
  }

  /** The categories `applyFilter` renders for a catalogue, an order, an input and a set of terms. */
  function Present(data: map<string, seq<Song>>, order: seq<string>, input: string, terms: set<string>)
    : map<string, seq<Song>>
  {
    CategoriesToRender(data, order, SearchTerm(input), ActiveFilters(terms))
  }

  /** Some filter is active: a non-blank query or a term. */
  predicate Filtering(input: string, terms: set<string>) {
    SearchTerm(input) != "" || terms != {}
  }

  /** The header order, as a function of the recorded order and the categories on screen. */
  ghost function HeaderNames(order: seq<string>, present: set<string>): (names: seq<string>)
    ensures forall i :: 0 <= i < |names| ==> names[i] in present
    ensures names == [] <==> present == {}
  {
    if IsStepmania(order, present) then
      var names := ListedPresent(order, present);
      var c :| c in present && c in order;
      assert c in names;
      assert forall i :: 0 <= i < |names| ==> names[i] in names;
      names
    else
      var keys := SetToSeq(present);
      SortedNamesAscending(keys);
      if present != {} then
        var c :| c in present;
        assert c in SortWith(keys, StrCompare);
        SortWith(keys, StrCompare)
      else
        SortWith(keys, StrCompare)
  }

  /** The screen for the categories to render, in header order, and the notices of an empty list. */
  ghost function ScreenFor(present: map<string, seq<Song>>, filtering: bool, order: seq<string>): Screen {
    var names := HeaderNames(order, present.Keys);
    if names == [] then
      if filtering then Screen([], true, NoNotice) else Screen([], false, NoSongsAvailable)
    else
      Screen(seq(|names|, i requires 0 <= i < |names| => CategoryView(names[i], present[names[i]])), false, NoNotice)
  }

  // ------------------------------------------------ properties of the view

  /** Of two strictly ascending lists of the same names, neither can start with a later name. */
  lemma AscendingHeads(a: seq<string>, b: seq<string>)
    requires Ascending(a) && Ascending(b)
    requires forall c :: c in a <==> c in b
    requires a != [] && b != []
    ensures a[0] == b[0]
  {
    if a[0] != b[0] {
      assert a[0] in b;
      var k :| 0 <= k < |b| && b[k] == a[0];
      assert b[0] in a;
      var m :| 0 <= m < |a| && a[m] == b[0];
      StrCompareFlip(a[0], b[0]);
    }
  }

  /** A strictly ascending list does not repeat its head. */
  lemma AscendingTail(a: seq<string>, c: string)
    requires Ascending(a) && a != []
    ensures c in a[1..] <==> c in a && c != a[0]
  {
    if c in a && c != a[0] {
      var i :| 0 <= i < |a| && a[i] == c;
      assert a[1..][i - 1] == c;
    }
  }

  /** Two strictly ascending lists of the same names are the same list: the header order is determined. */
  lemma {:induction false} AscendingUnique(a: seq<string>, b: seq<string>)
    requires Ascending(a) && Ascending(b)
    requires forall c :: c in a <==> c in b
    ensures a == b
  {
    assert a == [] <==> b == [] by {
      if a != [] {
        assert a[0] in b;
      }
      if b != [] {
        assert b[0] in a;
      }
    }
    if a != [] {
      AscendingHeads(a, b);
      forall c ensures c in a[1..] <==> c in b[1..] {
        AscendingTail(a, c);
        AscendingTail(b, c);
      }
      AscendingUnique(a[1..], b[1..]);
      assert a == [a[0]] + a[1..] && b == [b[0]] + b[1..];
    }
  }

  /** Sorting distinct names by the collation puts them in strictly ascending order. */
  lemma SortedNamesAscending(keys: seq<string>)
    requires Distinct(keys)
    ensures Ascending(SortWith(keys, StrCompare))
    ensures forall c :: c in SortWith(keys, StrCompare) <==> c in keys
  {
    var names := SortWith(keys, StrCompare);
    StrCompareIsComparator();
    SortWithSorted(keys, StrCompare);
    SortWithDistinct(keys, StrCompare);
    SortWithPermutes(keys, StrCompare);
    forall c ensures c in names <==> c in keys {
      assert c in names <==> c in multiset(names);
    }
  }

  /** The header order meets the ordering rule. */
  lemma HeaderNamesOrder(order: seq<string>, present: set<string>)
    ensures CategoryOrder(HeaderNames(order, present), order, present)
  {
    if !IsStepmania(order, present) {
      SortedNamesAscending(SetToSeq(present));
    }
  }

  /** The ordering rule admits exactly one list of headers. */
  lemma CategoryOrderUnique(names: seq<string>, order: seq<string>, present: set<string>)
    requires CategoryOrder(names, order, present)
    ensures names == HeaderNames(order, present)
  {
    if !IsStepmania(order, present) {
      HeaderNamesOrder(order, present);
      AscendingUnique(names, HeaderNames(order, present));
    }
  }

  /** The screen of `ScreenFor` is one that the display rule describes. */
  lemma ScreenForDisplays(present: map<string, seq<Song>>, filtering: bool, order: seq<string>)
    ensures var v := ScreenFor(present, filtering, order);
            Displays(v.categories, v.criteriaNotice, v.message, present, filtering, order)
  {
    var v := ScreenFor(present, filtering, order);
    HeaderNamesOrder(order, present.Keys);
    assert ViewNames(v.categories) == HeaderNames(order, present.Keys);
  }

  /** Conversely, the display rule describes no other screen. */
  lemma DisplaysOnlyScreenFor(
    rendered: seq<CategoryView>, criteriaNotice: bool, message: Notice,
    present: map<string, seq<Song>>, filtering: bool, order: seq<string>)
    requires Displays(rendered, criteriaNotice, message, present, filtering, order)
    ensures Screen(rendered, criteriaNotice, message) == ScreenFor(present, filtering, order)
  {
    if present.Keys != {} {
      var names := ViewNames(rendered);
      CategoryOrderUnique(names, order, present.Keys);
      var v := ScreenFor(present, filtering, order);
      assert |v.categories| == |rendered|;
      forall i | 0 <= i < |rendered| ensures v.categories[i] == rendered[i] {
      }
    }
  }

  /** Every rendered category is non-empty and holds exactly its survivors, rearranged. */
  lemma RenderedArePermutations(
    rendered: seq<CategoryView>, criteriaNotice: bool, message: Notice,
    data: map<string, seq<Song>>, order: seq<string>, input: string, terms: set<string>, i: nat)
    requires Displays(rendered, criteriaNotice, message, Present(data, order, input, terms), Filtering(input, terms), order)
    requires i < |rendered|
    ensures var c := rendered[i].name;
            c in data && rendered[i].songs != []
            && multiset(rendered[i].songs)
               == multiset(Survivors(data[c], c, order, SearchTerm(input), ActiveFilters(terms)))
  {
    RenderedCategory(data, order, SearchTerm(input), ActiveFilters(terms), rendered[i].name);
  }

  /** With the Stepmania order in force, a category missing from that order is never shown. */
  lemma UnlistedCategoryHidden(
    rendered: seq<CategoryView>, criteriaNotice: bool, message: Notice,
    present: map<string, seq<Song>>, filtering: bool, order: seq<string>, c: string)
    requires Displays(rendered, criteriaNotice, message, present, filtering, order)
    requires IsStepmania(order, present.Keys)
    requires c !in order
    ensures c !in ViewNames(rendered)
  {
  }

  /** Without the Stepmania order in force, every category with a survivor is shown, by ascending name. */
  lemma AlphabeticalWhenNotStepmania(
    rendered: seq<CategoryView>, criteriaNotice: bool, message: Notice,
    present: map<string, seq<Song>>, filtering: bool, order: seq<string>)
    requires Displays(rendered, criteriaNotice, message, present, filtering, order)
    requires !IsStepmania(order, present.Keys)
    ensures forall c :: c in ViewNames(rendered) <==> c in present
    ensures forall i, j :: 0 <= i < j < |rendered| ==> StrCompare(rendered[i].name, rendered[j].name) < 0
  {
    if present.Keys != {} {
      assert Ascending(ViewNames(rendered));
    }
  }

  /** Once a Stepmania order is recorded, a song without difficulty data is never shown, in any game. */
  lemma RecordedOrderHidesUnratedSongs(
    rendered: seq<CategoryView>, criteriaNotice: bool, message: Notice,
    data: map<string, seq<Song>>, order: seq<string>, input: string, terms: set<string>, i: nat, song: Song)
    requires Displays(rendered, criteriaNotice, message, Present(data, order, input, terms), Filtering(input, terms), order)
    requires |order| > 0 && !HasDifficultyData(song)
    requires i < |rendered|
    ensures song !in rendered[i].songs
  {
    RenderedArePermutations(rendered, criteriaNotice, message, data, order, input, terms, i);
    var c := rendered[i].name;
    SurvivorsIff(data[c], c, order, SearchTerm(input), ActiveFilters(terms), song);
    assert song !in multiset(rendered[i].songs);
  }

  /** A query equal to one of the tags adds nothing: the categories are those of an empty query. */
  lemma {:induction false} TagAsQueryAddsNothing(data: map<string, seq<Song>>, order: seq<string>, term: string,
                                                 tags: set<string>)
    requires Lower(term) in tags
    ensures CategoriesToRender(data, order, Lower(term), tags) == CategoriesToRender(data, order, "", tags)
  {
    forall c | c in data
      ensures Survivors(data[c], c, order, Lower(term), tags) == Survivors(data[c], c, order, "", tags)
    {
      var songs := data[c];
      var pool := if |order| > 0 then Filter(songs, HasDifficultyData) else songs;
      forall k | 0 <= k < |pool|
        ensures Matches(pool[k], c, Lower(term), tags) == Matches(pool[k], c, "", tags)
      {
        QueryEqualToTagIsRedundant(pool[k], c, term, tags);
      }
      FilterCongruent(pool, (song: Song) => Matches(song, c, Lower(term), tags),
                            (song: Song) => Matches(song, c, "", tags));
      SurvivorsAreTwoFilters(songs, c, order, Lower(term), tags);
      SurvivorsAreTwoFilters(songs, c, order, "", tags);
    }
  }

  /** Right after a term is added the input still holds it; emptying the input then changes nothing on screen. */
  lemma TermAsQueryAddsNothing(data: map<string, seq<Song>>, order: seq<string>, input: string, terms: set<string>)
    requires JsTrim(input) in terms
    ensures Present(data, order, input, terms) == Present(data, order, "", terms)
    ensures Filtering(input, terms) && Filtering("", terms)
    ensures ScreenFor(Present(data, order, input, terms), Filtering(input, terms), order)
         == ScreenFor(Present(data, order, "", terms), Filtering("", terms), order)
  {
    var term := JsTrim(input);
    assert Lower(term) in ActiveFilters(terms);
    assert JsTrim("") == "";
    TagAsQueryAddsNothing(data, order, term, ActiveFilters(terms));
  }

  // --------------------------------------------------------- session state

  /** `Object.keys(categoriesToRender)`: each name once, in some order. */
  method KeysOf(m: set<string>) returns (keys: seq<string>)
    ensures Distinct(keys)
    ensures forall c :: c in keys <==> c in m
  {
    keys := [];
    var rest := m;
    while rest != {}
      invariant rest <= m
      invariant Distinct(keys)
      invariant forall c :: c in keys <==> c in m && c !in rest
      decreases rest
    {
      var c :| c in rest;
      keys := keys + [c];
      rest := rest - {c};
    }
  }

  /** The loop of `applyFilter` over the catalogue that fills `categoriesToRender`. */
  method CollectCategories(data: map<string, seq<Song>>, order: seq<string>, searchTerm: string, tags: set<string>)
    returns (toRender: map<string, seq<Song>>)
    ensures toRender == CategoriesToRender(data, order, searchTerm, tags)
  {
    toRender := map[];
    var remaining := data.Keys;
    while remaining != {}
      invariant remaining <= data.Keys
      invariant forall c :: c in toRender <==>
        c in data && c !in remaining && Survivors(data[c], c, order, searchTerm, tags) != []
      invariant forall c :: c in toRender ==>
        toRender[c] == SortWith(Survivors(data[c], c, order, searchTerm, tags), TitleCompare)
      decreases remaining
    {
      var categoryName :| categoryName in remaining;
      var filteredSongs := Survivors(data[categoryName], categoryName, order, searchTerm, tags);
      if |filteredSongs| > 0 {
        toRender := toRender[categoryName := SortWith(filteredSongs, TitleCompare)];
      }
      remaining := remaining - {categoryName};
    }
  }

  /** `sortedCategoryNames`: the header order for the categories to render. */
  method HeaderOrder(order: seq<string>, present: set<string>) returns (names: seq<string>)
    ensures names == HeaderNames(order, present)
  {
    if IsStepmania(order, present) {
      names := ListedPresent(order, present);
    } else {
      var keys := KeysOf(present);
      names := SortWith(keys, StrCompare);
      SortedNamesAscending(keys);
      CategoryOrderUnique(names, order, present);
    }
  }

  /**
   * The body of `applyFilter`: the categories to render in header order,
   * whether the criteria notice shows, and the loading message.
   */
  method FilterView(data: map<string, seq<Song>>, order: seq<string>, input: string, terms: set<string>)
    returns (screen: Screen)
    ensures screen == ScreenFor(Present(data, order, input, terms), Filtering(input, terms), order)
  {
    var searchTerm := SearchTerm(input);
    var activeFilters := ActiveFilters(terms);
    var toRender := CollectCategories(data, order, searchTerm, activeFilters);
    var names := HeaderOrder(order, toRender.Keys);
    if |names| == 0 {
      if searchTerm != "" || terms != {} {
        screen := Screen([], true, NoNotice);
      } else {
        screen := Screen([], false, NoSongsAvailable);
      }
      return;
    }
    var categories := seq(|names|, i requires 0 <= i < |names| => CategoryView(names[i], toRender[names[i]]));
    screen := Screen(categories, false, NoNotice);
  }

  /** `results.forEach(({categoryName, data}) => { allSongsData[categoryName] = data; })` on an empty store. */
  function Collect(cats: seq<Category>): (m: map<string, seq<Song>>)
    ensures forall c :: c in m <==> exists i :: 0 <= i < |cats| && cats[i].categoryName == c
  {
    if cats == [] then map[]
    else
      var init, last := cats[..|cats| - 1], cats[|cats| - 1];
      assert forall i :: 0 <= i < |init| ==> init[i] == cats[i];
      Collect(init)[last.categoryName := last.data]
  }

  /** A category name that occurs again later is overwritten: the last occurrence wins. */
  lemma {:induction false} LaterCategoryWins(cats: seq<Category>, i: nat)
    requires i < |cats|
    requires forall j :: i < j < |cats| ==> cats[j].categoryName != cats[i].categoryName
    ensures cats[i].categoryName in Collect(cats) && Collect(cats)[cats[i].categoryName] == cats[i].data
  {
    if i < |cats| - 1 {
      var init := cats[..|cats| - 1];
      LaterCategoryWins(init, i);
    }
  }

  /** With nothing loaded and no filter, the screen is the "no songs available" message alone. */
  lemma EmptyCatalogueScreen(order: seq<string>)
    ensures ScreenFor(Present(map[], order, "", {}), Filtering("", {}), order) == Screen([], false, NoSongsAvailable)
  {
    assert JsTrim("") == "";
    assert Present(map[], order, "", {}).Keys == {};
  }

  /** The song searcher's state: the module-level variables and what is on screen. */
  class SongSearcher {
    /** `allSongsData`: the catalogue of the selected game, by category name. */
    var allSongsData: map<string, seq<Song>>
    /** `filterTerms`: the tags, trimmed as entered. */
    var filterTerms: set<string>
    /** `filterInput.value` */
    var inputValue: string
    /** `stepmaniaCategoryOrder`: set by a Stepmania load and never reset. */
    var stepmaniaCategoryOrder: seq<string>
    /** The categories in the category list. */
    var rendered: seq<CategoryView>
    /** The category list shows "no songs found matching your criteria". */
    var criteriaNotice: bool
    var loadingMessage: Notice
    /** The "clear all filters" button is displayed. */
    var clearVisible: bool

    /** The screen reflects the current catalogue, order, input and terms. */
    ghost predicate ShowsFilters()
      reads this
    {
      Screen(rendered, criteriaNotice, loadingMessage)
      == ScreenFor(Present(allSongsData, stepmaniaCategoryOrder, inputValue, filterTerms),
                   Filtering(inputValue, filterTerms), stepmaniaCategoryOrder)
    }

    /** The clear button shows exactly when there is a term or a non-blank input. */
    predicate ClearButtonRule()
      reads this
    {
      clearVisible == (filterTerms != {} || JsTrim(inputValue) != "")
    }

    /**
     * The page once loaded: nothing is loaded and the game prompt is set,
     * and the translation refresh that runs next turns any non-empty
     * message into "loading songs".
     */
    constructor ()
      ensures allSongsData == map[] && filterTerms == {} && inputValue == "" && stepmaniaCategoryOrder == []
      ensures rendered == [] && !criteriaNotice && loadingMessage == LoadingSongs
      ensures ClearButtonRule()
    {
      allSongsData := map[];
      filterTerms := {};
      inputValue := "";
      stepmaniaCategoryOrder := [];
      rendered := [];
      criteriaNotice := false;
      clearVisible := false;
      loadingMessage := SelectGameTitle;
      new;
      UpdateSongSearcherUI();
    }

    /** The part of `updateSongSearcherUI` that touches state: a non-empty message becomes "loading songs". */
    method UpdateSongSearcherUI()
      modifies this
      ensures loadingMessage == if old(loadingMessage) == NoNotice then NoNotice else LoadingSongs
      ensures allSongsData == old(allSongsData) && filterTerms == old(filterTerms) && inputValue == old(inputValue)
      ensures stepmaniaCategoryOrder == old(stepmaniaCategoryOrder) && rendered == old(rendered)
      ensures criteriaNotice == old(criteriaNotice) && clearVisible == old(clearVisible)
    {
      if loadingMessage != NoNotice {
        loadingMessage := LoadingSongs;
      }
    }

    /** `updateClearButtonVisibility` */
    method UpdateClearButtonVisibility()
      modifies this
      ensures ClearButtonRule()
      ensures allSongsData == old(allSongsData) && filterTerms == old(filterTerms) && inputValue == old(inputValue)
      ensures stepmaniaCategoryOrder == old(stepmaniaCategoryOrder) && rendered == old(rendered)
      ensures criteriaNotice == old(criteriaNotice) && loadingMessage == old(loadingMessage)
    {
      clearVisible := filterTerms != {} || JsTrim(inputValue) != "";
    }

    /** `applyFilter`: rebuilds the screen from the catalogue, the order, the input and the terms. */
    method ApplyFilter()
      modifies this
      ensures ShowsFilters()
      ensures allSongsData == old(allSongsData) && filterTerms == old(filterTerms) && inputValue == old(inputValue)
      ensures stepmaniaCategoryOrder == old(stepmaniaCategoryOrder) && clearVisible == old(clearVisible)
    {
      var screen := FilterView(allSongsData, stepmaniaCategoryOrder, inputValue, filterTerms);
      rendered, criteriaNotice, loadingMessage := screen.categories, screen.criteriaNotice, screen.message;
    }

    /** The add button and the Enter key: a non-blank trimmed input becomes a term and the input is emptied. */
    method AddFilterTerm()
      modifies this
      ensures JsTrim(old(inputValue)) == "" ==> unchanged(this)
      ensures JsTrim(old(inputValue)) != "" ==>
        filterTerms == old(filterTerms) + {JsTrim(old(inputValue))} && inputValue == ""
        && ShowsFilters() && ClearButtonRule()
      ensures allSongsData == old(allSongsData) && stepmaniaCategoryOrder == old(stepmaniaCategoryOrder)
    {
      var term := JsTrim(inputValue);
      if term != "" {
        filterTerms := filterTerms + {term};
        UpdateClearButtonVisibility();
        ApplyFilter();
        TermAsQueryAddsNothing(allSongsData, stepmaniaCategoryOrder, inputValue, filterTerms);
        inputValue := "";
      }
    }

    /** The remove button of a tag: only that term goes. */
    method RemoveFilterTerm(term: string)
      modifies this
      ensures filterTerms == old(filterTerms) - {term} && inputValue == old(inputValue)
      ensures ShowsFilters() && ClearButtonRule()
      ensures allSongsData == old(allSongsData) && stepmaniaCategoryOrder == old(stepmaniaCategoryOrder)
    {
      filterTerms := filterTerms - {term};
      UpdateClearButtonVisibility();
      ApplyFilter();
    }

    /** The clear-all button: no terms, no input. */
    method ClearFilters()
      modifies this
      ensures filterTerms == {} && inputValue == "" && !clearVisible
      ensures ShowsFilters() && ClearButtonRule()
      ensures allSongsData == old(allSongsData) && stepmaniaCategoryOrder == old(stepmaniaCategoryOrder)
    {
      filterTerms := {};
      inputValue := "";
      UpdateClearButtonVisibility();
      ApplyFilter();
    }

    /** Typing in the input: the screen follows the new text at once. */
    method InputChanged(value: string)
      modifies this
      ensures inputValue == value && filterTerms == old(filterTerms)
      ensures ShowsFilters() && ClearButtonRule()
      ensures allSongsData == old(allSongsData) && stepmaniaCategoryOrder == old(stepmaniaCategoryOrder)
    {
      inputValue := value;
      UpdateClearButtonVisibility();
      ApplyFilter();
    }

    /** A click on the language flag: the translation refresh, then `applyFilter`. */
    method LanguageChanged()
      modifies this
      ensures ShowsFilters()
      ensures allSongsData == old(allSongsData) && filterTerms == old(filterTerms) && inputValue == old(inputValue)
      ensures stepmaniaCategoryOrder == old(stepmaniaCategoryOrder) && clearVisible == old(clearVisible)
    {
      UpdateSongSearcherUI();
      ApplyFilter();
    }

    /**
     * `loadSongsForGame`: empties the catalogue, the terms and the input,
     * then loads the game's folder or file. The Stepmania order is replaced
     * only by a Stepmania list load and is otherwise kept, so it survives a
     * switch to another game. A rejected folder load leaves "loading songs".
     */
    method LoadSongsForGame(gameName: string, site: Site)
      modifies this
      ensures filterTerms == {} && inputValue == "" && !clearVisible && ClearButtonRule()
      ensures GameSource(gameName).None? ==>
        allSongsData == map[] && rendered == [] && !criteriaNotice && loadingMessage == NoSongsAvailable
        && stepmaniaCategoryOrder == old(stepmaniaCategoryOrder)
      ensures GameSource(gameName).Some? && GameSource(gameName).value.Folder? ==>
        var r := FetchRecursively(GameSource(gameName).value.path, site);
        && stepmaniaCategoryOrder
           == (if r.Loaded? && r.recordedOrder.Some? then r.recordedOrder.value else old(stepmaniaCategoryOrder))
        && (r.Failed? ==>
              allSongsData == map[] && rendered == [] && !criteriaNotice && loadingMessage == LoadingSongs)
        && (r.Loaded? ==> allSongsData == Collect(r.categories) && ShowsFilters())
      ensures GameSource(gameName).Some? && GameSource(gameName).value.File? ==>
        var answer := site.catalogue(GameSource(gameName).value.path);
        && stepmaniaCategoryOrder == old(stepmaniaCategoryOrder)
        && allSongsData == (if answer.Ok? then map[gameName := answer.body] else map[])
        && ShowsFilters()
    {
      allSongsData := map[];
      filterTerms := {};
      inputValue := "";
      UpdateClearButtonVisibility();
      rendered := [];
      criteriaNotice := false;
      loadingMessage := NoNotice;

      var source := GameSource(gameName);
      if source.None? {
        loadingMessage := NoSongsAvailable;
        return;
      }
      loadingMessage := LoadingSongs;
      match source.value
      case Folder(path) =>
        LoadFolder(path, site);
      case File(path) =>
        LoadFile(gameName, path, site);
    }

    /** The folder branch of `loadSongsForGame`, entered with everything emptied and "loading songs" shown. */
    method LoadFolder(path: string, site: Site)
      modifies this
      requires allSongsData == map[] && filterTerms == {} && inputValue == ""
      requires rendered == [] && !criteriaNotice
      ensures filterTerms == {} && inputValue == "" && clearVisible == old(clearVisible)
      ensures var r := FetchRecursively(path, site);
        && stepmaniaCategoryOrder
           == (if r.Loaded? && r.recordedOrder.Some? then r.recordedOrder.value else old(stepmaniaCategoryOrder))
        && (r.Failed? ==>
              allSongsData == map[] && rendered == [] && !criteriaNotice && loadingMessage == old(loadingMessage))
        && (r.Loaded? ==> allSongsData == Collect(r.categories) && ShowsFilters())
    {
      var results := FetchRecursively(path, site);
      if results.Failed? {
        return;
      }
      if results.recordedOrder.Some? {
        stepmaniaCategoryOrder := results.recordedOrder.value;
      }
      var cats := results.categories;
      if |cats| == 0 {
        loadingMessage := NoSongsAvailable;
        EmptyCatalogueScreen(stepmaniaCategoryOrder);
        return;
      }
      StoreCategories(cats);
      loadingMessage := NoNotice;
      ApplyFilter();
    }

    /** `results.forEach(({categoryName, data}) => { allSongsData[categoryName] = data; })` */
    method StoreCategories(cats: seq<Category>)
      modifies this
      requires allSongsData == map[]
      ensures allSongsData == Collect(cats)
      ensures filterTerms == old(filterTerms) && inputValue == old(inputValue) && clearVisible == old(clearVisible)
      ensures stepmaniaCategoryOrder == old(stepmaniaCategoryOrder) && rendered == old(rendered)
      ensures criteriaNotice == old(criteriaNotice) && loadingMessage == old(loadingMessage)
    {
      for i := 0 to |cats|
        invariant allSongsData == Collect(cats[..i])
        invariant filterTerms == old(filterTerms) && inputValue == old(inputValue) && clearVisible == old(clearVisible)
        invariant stepmaniaCategoryOrder == old(stepmaniaCategoryOrder) && rendered == old(rendered)
        invariant criteriaNotice == old(criteriaNotice) && loadingMessage == old(loadingMessage)
      {
        assert cats[..i + 1][..i] == cats[..i];
        allSongsData := allSongsData[cats[i].categoryName := cats[i].data];
      }
      assert cats[..|cats|] == cats;
    }

    /** The file branch of `loadSongsForGame`: the whole catalogue is one category named after the game. */
    method LoadFile(gameName: string, path: string, site: Site)
      modifies this
      requires allSongsData == map[] && filterTerms == {} && inputValue == ""
      requires rendered == [] && !criteriaNotice
      ensures filterTerms == {} && inputValue == "" && clearVisible == old(clearVisible)
      ensures var answer := site.catalogue(path);
        && stepmaniaCategoryOrder == old(stepmaniaCategoryOrder)
        && allSongsData == (if answer.Ok? then map[gameName := answer.body] else map[])
        && ShowsFilters()
    {
      match site.catalogue(path)
      case Ok(data) =>
        allSongsData := allSongsData[gameName := data];
        loadingMessage := NoNotice;
        ApplyFilter();
      case _ =>
        loadingMessage := NoSongsAvailable;
        EmptyCatalogueScreen(stepmaniaCategoryOrder);
    }
  }
}
