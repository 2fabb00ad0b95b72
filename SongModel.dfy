/**
 * The song records of the song searcher (js/song_search.js) and the pure
 * rules applied to them: the display-text choice, the match predicate, the
 * category-name collation, the first-letter quick filter and the
 * difficulty summary shown under each song.
 */
module SongModel {
  import opened Wrappers
  import opened Text
  import opened Lists

  // ---------------------------------------------------------------- records

  /** A JSON scalar as a difficulty map holds it. */
  datatype JsValue = JsNull | JsString(str: string) | JsNumber(num: int)

  /** A song record as parsed from a catalogue file. Absent and null fields are `None`. */
  datatype Song = Song(
    title: Option<string>,
    titleTranslit: Option<string>,
    artist: Option<string>,
    artistTranslit: Option<string>,
    subtitle: Option<string>,
    subtitleTranslit: Option<string>,
    singleDifficulties: Option<map<string, JsValue>>,
    doubleDifficulties: Option<map<string, JsValue>>,
    difficulties: Option<seq<(string, JsValue)>>)

  /** JavaScript truthiness of a JSON scalar. */
  predicate Truthy(v: JsValue) {
    match v
    case JsNull => false
    case JsString(s) => s != ""
    case JsNumber(n) => n != 0
  }

  /** What a template literal `${v}` turns the value into. */
  function Render(v: JsValue): string {
    match v
    case JsNull => "null"
    case JsString(s) => s
    case JsNumber(n) => IntToString(n)
  }

  /**
   * `song.single_difficulties || song.double_difficulties || song.difficulties`:
   * a JavaScript object is truthy even when it has no keys.
   */
  predicate HasDifficultyData(song: Song) {
    song.singleDifficulties.Some? || song.doubleDifficulties.Some? || song.difficulties.Some?
  }

  // ------------------------------------------------------------ display text

  /** A field that is present and not blank after trimming. */
  predicate Usable(field: Option<string>) {
    field.Some? && !Blank(field.value)
  }

  /** `getText`: the transliteration when usable, else the original, else `''`. */
  function GetText(original: Option<string>, translit: Option<string>): (r: string)
    ensures Usable(translit) ==> r == translit.value
    ensures !Usable(translit) && original.Some? ==> r == original.value
    ensures !Usable(translit) && original.None? ==> r == ""
  {
    if Usable(translit) then translit.value else original.GetOr("")
  }

  /** The displayed text is blank exactly when neither field offers non-blank text. */
  lemma GetTextBlank(original: Option<string>, translit: Option<string>)
    ensures JsTrim(GetText(original, translit)) == "" <==> !Usable(translit) && !Usable(original)
  {
    BlankIffTrimmedEmpty(GetText(original, translit));
  }

  /** The title shown for a song (and used for sorting and the letter filter). */
  function DisplayTitle(song: Song): string {
    GetText(song.title, song.titleTranslit)
  }

  // -------------------------------------------------------- match predicate

  /** The four lower-cased texts a query is looked for in. */
  datatype SearchText = SearchText(title: string, artist: string, subtitle: string, mix: string) {
    /** The term occurs in at least one of the four texts. */
    predicate Has(term: string) {
      Contains(title, term) || Contains(artist, term) || Contains(subtitle, term) || Contains(mix, term)
    }
  }

  function SearchTextOf(song: Song, categoryName: string): SearchText {
    SearchText(
      Lower(GetText(song.title, song.titleTranslit)),
      Lower(GetText(song.artist, song.artistTranslit)),
      Lower(GetText(song.subtitle, song.subtitleTranslit)),
      Lower(categoryName))
  }

  /** The live query as `applyFilter` uses it: trimmed, then lower-cased. */
  function SearchTerm(input: string): string {
    Lower(JsTrim(input))
  }

  /** The filter tags as `applyFilter` uses them: lower-cased. */
  function ActiveFilters(terms: set<string>): set<string> {
    set t | t in terms :: Lower(t)
  }

  /** Each term gives its lower-cased tag, and each tag comes from a term. */
  lemma ActiveFiltersSpec(terms: set<string>)
    ensures var tags := ActiveFilters(terms);
            && (forall t :: t in terms ==> Lower(t) in tags)
            && (forall tag :: tag in tags ==> exists t :: t in terms && Lower(t) == tag)
            && (tags == {} <==> terms == {})
  {
    if terms != {} {
      var t :| t in terms;
      assert Lower(t) in ActiveFilters(terms);
    }
  }

  /**
   * The song survives the text filters: the query is empty or found, and
   * every tag is found, each in at least one of the four texts.
   */
  predicate Matches(song: Song, categoryName: string, searchTerm: string, tags: set<string>) {
    var text := SearchTextOf(song, categoryName);
    (searchTerm == "" || text.Has(searchTerm)) && forall tag :: tag in tags ==> text.Has(tag)
  }

  /** A non-empty query only lets through songs whose texts contain it. */
  lemma MatchedQueryOccurs(song: Song, categoryName: string, searchTerm: string, tags: set<string>)
    requires Matches(song, categoryName, searchTerm, tags) && searchTerm != ""
    ensures Contains(Lower(categoryName), searchTerm)
      || Contains(Lower(DisplayTitle(song)), searchTerm)
      || Contains(Lower(GetText(song.artist, song.artistTranslit)), searchTerm)
      || Contains(Lower(GetText(song.subtitle, song.subtitleTranslit)), searchTerm)
  {
  }

  /** A tag that matches none of the four texts excludes the song. */
  lemma UnmatchedTagExcludes(song: Song, categoryName: string, searchTerm: string, tags: set<string>, tag: string)
    requires tag in tags && !SearchTextOf(song, categoryName).Has(tag)
    ensures !Matches(song, categoryName, searchTerm, tags)
  {
  }

  /** Adding a tag can only remove songs. */
  lemma TagsNarrow(song: Song, categoryName: string, searchTerm: string, tags: set<string>, tag: string)
    ensures Matches(song, categoryName, searchTerm, tags + {tag}) ==> Matches(song, categoryName, searchTerm, tags)
  {
  }

  /**
   * Right after a term is added, `applyFilter` runs while the input still holds
   * that term; the query then adds nothing to the tag test.
   */
  lemma QueryEqualToTagIsRedundant(song: Song, categoryName: string, term: string, tags: set<string>)
    requires Lower(term) in tags
    ensures Matches(song, categoryName, Lower(term), tags) == Matches(song, categoryName, "", tags)
  {
  }

  /** The category name is searched like the song's own texts: it alone can make a song match. */
  lemma CategoryNameMatches(song: Song, categoryName: string, searchTerm: string)
    requires Contains(Lower(categoryName), searchTerm)
    ensures Matches(song, categoryName, searchTerm, {})
  {
    assert SearchTextOf(song, categoryName).mix == Lower(categoryName);
  }

  // -------------------------------------------------------------- collation

  /**
   * The order `localeCompare` imposes, modelled as lexicographic order on
   * code points: negative, zero or positive.
   */
  function StrCompare(a: string, b: string): (r: int)
    ensures r == 0 <==> a == b
    ensures -1 <= r <= 1
  {
    if a == [] && b == [] then 0
    else if a == [] then -1
    else if b == [] then 1
    else if a[0] < b[0] then -1
    else if a[0] > b[0] then 1
    else
      assert a == [a[0]] + a[1..] && b == [b[0]] + b[1..];
      StrCompare(a[1..], b[1..])
  }

  lemma {:induction false} StrCompareFlip(a: string, b: string)
    ensures StrCompare(a, b) == -StrCompare(b, a)
  {
    if a != [] && b != [] && a[0] == b[0] {
      StrCompareFlip(a[1..], b[1..]);
    }
  }

  lemma {:induction false} StrCompareTransitive(a: string, b: string, c: string)
    requires StrCompare(a, b) <= 0 && StrCompare(b, c) <= 0
    ensures StrCompare(a, c) <= 0
  {
    if a != [] && b != [] && c != [] && a[0] == b[0] && b[0] == c[0] {
      StrCompareTransitive(a[1..], b[1..], c[1..]);
    }
  }

  /** The collation is a consistent comparator, so sorting by it yields ascending order. */
  lemma StrCompareIsComparator()
    ensures IsComparator(StrCompare)
  {
    forall a, b | StrCompare(a, b) >= 0 ensures StrCompare(b, a) <= 0 {
      StrCompareFlip(a, b);
    }
    forall a, b, c | StrCompare(a, b) <= 0 && StrCompare(b, c) <= 0 ensures StrCompare(a, c) <= 0 {
      StrCompareTransitive(a, b, c);
    }
  }

  // ------------------------------------------------------- song comparator

  /**
   * The comparator of the in-category sort, as written: the second title is
   * taken from `b.title` but `a.title_translit`.
   */
  function TitleCompare(a: Song, b: Song): int {
    StrCompare(Lower(GetText(a.title, a.titleTranslit)), Lower(GetText(b.title, a.titleTranslit)))
  }

  /**
   * The comparator does not order by display title: sorting a song with a
   * transliteration ahead of one without can leave display titles "z", "b".
   */
  lemma TitleCompareLeavesUnsorted()
    ensures var x := Song(Some("a"), Some("z"), None, None, None, None, None, None, None);
            var y := Song(Some("b"), None, None, None, None, None, None, None, None);
            SortWith([x, y], TitleCompare) == [x, y]
            && DisplayTitle(x) == "z" && DisplayTitle(y) == "b"
  {
    var x := Song(Some("a"), Some("z"), None, None, None, None, None, None, None);
    var y := Song(Some("b"), None, None, None, None, None, None, None, None);
    assert !IsJsSpace("z"[0]);
    assert Usable(Some("z"));
    assert !Usable(None);
    assert GetText(y.title, y.titleTranslit) == "b";
    assert GetText(x.title, y.titleTranslit) == "a";
    assert Lower("b") == "b" && Lower("a") == "a";
    assert StrCompare("b", "a") == 1;
    assert TitleCompare(y, x) == 1;
    assert [x, y][..1] == [x];
    assert SortWith([x], TitleCompare) == [x];
    assert Insert(y, [x], TitleCompare) == [x, y];
  }

  // -------------------------------------------------- first-letter filter

  /** The value of a quick-filter button. */
  datatype LetterChoice = AllLetters | NonLetter | Letter(c: char)

  /** The buttons of the quick-filter bar: `All`, `A` to `Z`, then `#`. */
  function LetterButtons(): (r: seq<LetterChoice>)
    ensures |r| == 28 && r[0] == AllLetters && r[27] == NonLetter
    ensures forall i :: 1 <= i <= 26 ==> r[i] == Letter((64 + i) as char)
  {
    [AllLetters] + seq(26, i requires 0 <= i < 26 => Letter((65 + i) as char)) + [NonLetter]
  }

  /** `displayTitle.trim().charAt(0).toLowerCase()`: empty for a blank title. */
  function FirstChar(song: Song): (r: string)
    ensures |r| <= 1
  {
    var t := JsTrim(DisplayTitle(song));
    if t == [] then "" else [AsciiLower(t[0])]
  }

  /** Whether a button shows a song whose first character is `key`. */
  predicate KeyMatches(key: string, choice: LetterChoice) {
    match choice
    case AllLetters => true
    case NonLetter => key == "" || !('a' <= key[0] <= 'z')
    case Letter(c) => key == [AsciiLower(c)]
  }

  predicate KeptByLetter(song: Song, choice: LetterChoice) {
    KeyMatches(FirstChar(song), choice)
  }

  /** The songs a quick-filter button shows, in list order. */
  function FilterByLetter(songs: seq<Song>, choice: LetterChoice): (r: seq<Song>)
    ensures choice == AllLetters ==> r == songs
    ensures IsSubsequence(r, songs)
    ensures forall i :: 0 <= i < |r| ==> r[i] in songs && KeptByLetter(r[i], choice)
    ensures forall i :: 0 <= i < |songs| ==> (songs[i] in r <==> KeptByLetter(songs[i], choice))
  {
    if choice == AllLetters then
      SubsequenceReflexive(songs);
      songs
    else Filter(songs, s => KeptByLetter(s, choice))
  }

  /** Every first character is matched by exactly one of the buttons `A`..`Z`, `#`. */
  lemma OneButtonPerKey(key: string)
    requires |key| <= 1
    ensures KeyMatches(key, NonLetter) <==> forall c :: 'A' <= c <= 'Z' ==> !KeyMatches(key, Letter(c))
    ensures forall c, d :: 'A' <= c <= 'Z' && 'A' <= d <= 'Z' && c != d ==>
              !(KeyMatches(key, Letter(c)) && KeyMatches(key, Letter(d)))
  {
    if key != "" && 'a' <= key[0] <= 'z' {
      var up := (key[0] as int - 32) as char;
      assert AsciiLower(up) == key[0];
      assert key == [key[0]];
      assert KeyMatches(key, Letter(up));
    }
  }

  /** Every song is shown under exactly one of the buttons `A`..`Z`, `#`. */
  lemma OneLetterButtonPerSong(song: Song)
    ensures NonLetter in LetterButtons()
    ensures KeptByLetter(song, NonLetter) <==> forall c :: 'A' <= c <= 'Z' ==> !KeptByLetter(song, Letter(c))
    ensures forall c, d :: 'A' <= c <= 'Z' && 'A' <= d <= 'Z' && c != d ==>
              !(KeptByLetter(song, Letter(c)) && KeptByLetter(song, Letter(d)))
  {
    assert LetterButtons()[27] == NonLetter;
    OneButtonPerKey(FirstChar(song));
  }

  // ---------------------------------------------------- difficulty summary

  /** The Stepmania tiers, in the order they are listed. */
  const StepmaniaOrder: seq<string> := ["Beginner", "Easy", "Medium", "Hard", "Challenge"]

  /** A rating is listed unless it is falsy, `'N/A'` or `'Not available'`. */
  predicate Shown(v: JsValue) {
    Truthy(v) && v != JsString("N/A") && v != JsString("Not available")
  }

  predicate ShownPair(p: (string, JsValue)) {
    Shown(p.1)
  }

  function Entry(p: (string, JsValue)): string {
    p.0 + ": " + Render(p.1)
  }

  /** The `name: rating` entries of the listed ratings, in the given order. */
  function ShownEntries(pairs: seq<(string, JsValue)>): (r: seq<string>)
    ensures |r| <= |pairs|
  {
    var kept := Filter(pairs, ShownPair);
    seq(|kept|, i requires 0 <= i < |kept| => Entry(kept[i]))
  }

  /** Each tier paired with its rating in the map (a missing key reads as undefined). */
  function TierPairs(m: map<string, JsValue>): (r: seq<(string, JsValue)>)
    ensures |r| == 5
    ensures forall i :: 0 <= i < 5 ==> r[i].0 == StepmaniaOrder[i]
    ensures forall i :: 0 <= i < 5 ==>
      r[i].1 == (if StepmaniaOrder[i] in m then m[StepmaniaOrder[i]] else JsNull)
  {
    seq(5, i requires 0 <= i < 5 => (StepmaniaOrder[i], if StepmaniaOrder[i] in m then m[StepmaniaOrder[i]] else JsNull))
  }

  /** Every entry names a rating that is listed, and the entries keep their order. */
  lemma ShownEntriesAreShown(pairs: seq<(string, JsValue)>)
    ensures var kept := Filter(pairs, ShownPair);
            IsSubsequence(kept, pairs) && |ShownEntries(pairs)| == |kept|
            && forall i :: 0 <= i < |kept| ==> Shown(kept[i].1) && ShownEntries(pairs)[i] == Entry(kept[i])
  {
  }

  /** A tier has an entry exactly when the map holds a listed rating for it. */
  lemma {:induction false} TierListedIff(m: map<string, JsValue>, i: nat)
    requires i < 5
    ensures TierPairs(m)[i] in Filter(TierPairs(m), ShownPair)
      <==> StepmaniaOrder[i] in m && Shown(m[StepmaniaOrder[i]])
  {
  }

  /** One more pair adds at most its own entry. */
  lemma ShownEntriesStep(pairs: seq<(string, JsValue)>, i: nat)
    requires i < |pairs|
    ensures ShownEntries(pairs[..i + 1])
         == ShownEntries(pairs[..i]) + (if Shown(pairs[i].1) then [Entry(pairs[i])] else [])
  {
    assert pairs[..i + 1] == pairs[..i] + [pairs[i]];
    FilterSnoc(pairs[..i], pairs[i], ShownPair);
  }

  method CollectTierEntries(m: map<string, JsValue>) returns (entries: seq<string>)
    ensures entries == ShownEntries(TierPairs(m))
  {
    entries := [];
    ghost var pairs := TierPairs(m);
    for i := 0 to |StepmaniaOrder|
      invariant entries == ShownEntries(pairs[..i])
    {
      var diff := StepmaniaOrder[i];
      var value := if diff in m then m[diff] else JsNull;
      assert pairs[i] == (diff, value);
      ShownEntriesStep(pairs, i);
      if Shown(value) {
        entries := entries + [diff + ": " + Render(value)];
      }
    }
    assert pairs[..5] == pairs;
  }

  method CollectEntries(pairs: seq<(string, JsValue)>) returns (entries: seq<string>)
    ensures entries == ShownEntries(pairs)
  {
    entries := [];
    for i := 0 to |pairs|
      invariant entries == ShownEntries(pairs[..i])
    {
      ShownEntriesStep(pairs, i);
      var (diff, value) := pairs[i];
      if Shown(value) {
        entries := entries + [diff + ": " + Render(value)];
      }
    }
    assert pairs[..|pairs|] == pairs;
  }

  /** A labelled line of entries joined by `' | '`, present only when there is an entry. */
  function Line(prefix: string, entries: seq<string>): seq<string> {
    if |entries| > 0 then [prefix + Join(entries, " | ")] else []
  }

  function TierLine(prefix: string, m: Option<map<string, JsValue>>): seq<string> {
    if m.Some? then Line(prefix, ShownEntries(TierPairs(m.value))) else []
  }

  /**
   * The lines of the difficulty block under a song: the single tiers, the
   * double tiers, and the flat map only when there are neither.
   */
  function DifficultySummary(song: Song): seq<string> {
    TierLine("Single: ", song.singleDifficulties)
    + TierLine("Doubles: ", song.doubleDifficulties)
    + (if song.difficulties.Some? && song.singleDifficulties.None? && song.doubleDifficulties.None?
       then Line("", ShownEntries(song.difficulties.value))
       else [])
  }

  /** The single or double span: the tier entries under a label, if any. */
  method TierSpan(prefix: string, m: Option<map<string, JsValue>>) returns (line: seq<string>)
    ensures line == TierLine(prefix, m)
  {
    line := [];
    if m.Some? {
      var diffs := CollectTierEntries(m.value);
      if |diffs| > 0 {
        line := [prefix + Join(diffs, " | ")];
      }
    }
  }

  /** The difficulty block of `renderSongItem`, one string per span. */
  method DifficultyText(song: Song) returns (lines: seq<string>)
    ensures lines == DifficultySummary(song)
  {
    var single := TierSpan("Single: ", song.singleDifficulties);
    var double := TierSpan("Doubles: ", song.doubleDifficulties);
    var diva: seq<string> := [];
    if song.difficulties.Some? && song.singleDifficulties.None? && song.doubleDifficulties.None? {
      var divaDiffs := CollectEntries(song.difficulties.value);
      if |divaDiffs| > 0 {
        diva := [Join(divaDiffs, " | ")];
        assert "" + Join(divaDiffs, " | ") == Join(divaDiffs, " | ");
      }
    }
    lines := single + double + diva;
  }

  /** A tier map yields a line exactly when it holds a listed rating for some tier. */
  lemma {:induction false} TierLineIff(prefix: string, m: map<string, JsValue>)
    ensures TierLine(prefix, Some(m)) != []
      <==> exists i :: 0 <= i < 5 && StepmaniaOrder[i] in m && Shown(m[StepmaniaOrder[i]])
  {
    var pairs := TierPairs(m);
    var kept := Filter(pairs, ShownPair);
    if i :| 0 <= i < 5 && StepmaniaOrder[i] in m && Shown(m[StepmaniaOrder[i]]) {
      TierListedIff(m, i);
      assert |kept| > 0;
    }
    if |kept| > 0 {
      assert kept[0] in pairs;
      var i :| 0 <= i < 5 && pairs[i] == kept[0];
      TierListedIff(m, i);
    }
  }

  /**
   * When a song has single or double tiers, its flat map is never shown:
   * every line is labelled `Single: ` or `Doubles: `, and there are at most two.
   */
  lemma FlatMapOnlyAsFallback(song: Song)
    requires song.singleDifficulties.Some? || song.doubleDifficulties.Some?
    ensures var lines := DifficultySummary(song);
            |lines| <= 2 && forall i :: 0 <= i < |lines| ==> "Single: " <= lines[i] || "Doubles: " <= lines[i]
  {
  }

  /** A song with only a flat map shows at most one, unlabelled, line of its listed ratings. */
  lemma FlatMapLine(song: Song)
    requires song.singleDifficulties.None? && song.doubleDifficulties.None? && song.difficulties.Some?
    ensures DifficultySummary(song) == Line("", ShownEntries(song.difficulties.value))
  {
  }
}
