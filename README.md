# Rising Flow site core, modelled in Dafny

Rising Flow is a static website for a rhythm-game community. Its logic lives in a few places:

- A **song searcher** (`js/song_search.js`). It loads a game's song catalogue and filters it by a live query and a set of filter tags. It groups songs into categories, orders the category headers, and offers a first-letter quick filter and a difficulty summary per song.
- Two **Python generators**. `data/YARG/generate_yarg_json.py` turns YARG song folders (each with a `song.ini` and audio files) into catalogue records. `stepmania_songs_no_difficulties.py` reports Stepmania songs that carry no difficulty data.
- An **events page** (`js/event-loader.js`, `js/events.js`). It loads event records, splits them into upcoming and past, and validates e-mail addresses.
- A site-wide **language switcher** (`js/script.js`) between Brazilian Portuguese and British English.

The project models each of these in Dafny and proves what the code promises:

- **Pure rules** are functions with lemmas about them: display-text choice, the match predicate, file-name parsing, the INI line parser, the e-mail regular expression and the date rule.
- **State** is classes whose methods are proved against those functions: the searcher's module variables, the `EventManager` fields and the current language.
- **Loops** are `while`/`for` methods with invariants: the INI parser, the folder scan, the audio test, the difficulty strings, the category loop of `applyFilter` and the report loop.

The model has these modules:

| module | models |
|---|---|
| `Wrappers` | `Option` |
| `Text` | JavaScript and Python whitespace and trimming, ASCII lower-casing, substring search, decimal spelling |
| `Lists` | filtering, subsequences, `Somes`, `FlatMap`, and a stable insertion sort standing for `Array.prototype.sort` |
| `SongModel` | song records, `getText`, the match predicate, collation, letter filter, difficulty text |
| `SongLoader` | Stepmania file-name regex, manifest names, the two folder loaders |
| `SongSearch` | what `applyFilter` shows, and the `SongSearcher` class holding the page state |
| `YargSongs` | `parse_ini_file`, `has_audio_file`, `scan_yarg_songs` |
| `EventLoader` | `EventManager`, `getMonthAbbreviation`, `formatDateRange` |
| `EmailCheck` | `isValidEmail` |
| `Language` | the language switcher |
| `NoDifficultyReport` | the no-difficulty report script |

Design notes:

- The sort comparator at `js/song_search.js:464` is modelled as written: it takes `a.title_translit` for `b`. So the model claims that each rendered category is a permutation of its survivors, not that it is sorted. `SongModel.TitleCompareLeavesUnsorted` exhibits two songs that this comparator leaves out of display-title order.
- `loadSongsForGame` never resets `stepmaniaCategoryOrder`, and the model keeps that. After a Stepmania load, the "drop songs without difficulties" rule stays in force for every later game (`SongSearch.RecordedOrderHidesUnratedSongs`).
- Network answers, directory listings and file contents are parameters:
  - `SongLoader.Site` says what each URL answers;
  - event folders are given by their fetch outcomes, and the date "now" is a parameter;
  - YARG folders are given as lists of names plus the state of their `song.ini`;
  - report files are given as names plus parsed contents.

## Model

| member | source | states |
|---|---|---|
| Text.TrimStartSpec | js/song_search.js:419 | leading trim keeps a suffix, removes only whitespace and stops at the first other character |
| Text.TrimEndSpec | js/song_search.js:419 | trailing trim keeps a prefix, removes only whitespace and stops at the last other character |
| Text.TrimSpec | js/song_search.js:419 | a trimmed string neither starts nor ends with whitespace; it is empty exactly when the input is all whitespace |
| Text.TrimIdempotent | data/YARG/generate_yarg_json.py:35-39 | stripping an already stripped line or key changes nothing more |
| Text.BlankIffTrimmedEmpty | js/song_search.js:74 | `s.trim() !== ''` fails exactly when `s` is all whitespace |
| Text.Lower | js/song_search.js:437-440 | lower-casing keeps the length and maps each character on its own |
| Text.LowerIdempotent | data/YARG/generate_yarg_json.py:11 | lower-casing twice equals lower-casing once |
| Text.NatToString | js/song_search.js:147 | the decimal spelling is non-empty, all digits, and starts with `0` only for zero |
| Text.DigitsValueOfNatToString | js/song_search.js:147 | reading back the decimal spelling of `n` gives `n` |
| Text.IndexOf | js/song_search.js:146 | the result is the first position where the needle occurs, or -1 when it does not occur |
| Text.ReplaceFirst | js/song_search.js:146 | a string without the pattern is returned unchanged; otherwise only the first occurrence, the one `IndexOf` finds, is replaced |
| Lists.SortWithPermutes | js/song_search.js:462-466 | sorting with any comparator rearranges the list without adding or losing elements |
| Lists.SortWithSorted | js/event-loader.js:93-96 | sorting with a consistent comparator yields a list ordered by it |
| SongModel.GetText | js/song_search.js:73-75 | the result is the transliteration when present and not blank, else the original, else `''` |
| SongModel.GetTextBlank | js/song_search.js:73-75 | the displayed text is blank exactly when neither field offers non-blank text |
| SongModel.ActiveFiltersSpec | js/song_search.js:420 | every term gives its lower-cased tag, every tag comes from a term, and there are no tags exactly when there are no terms |
| SongModel.MatchedQueryOccurs | js/song_search.js:437-447 | a match with a non-empty query means the query occurs in the lower-cased title, artist, subtitle or category name |
| SongModel.UnmatchedTagExcludes | js/song_search.js:450-455 | a tag found in none of the four texts excludes the song |
| SongModel.TagsNarrow | js/song_search.js:450-457 | adding a tag can only remove songs from the result |
| SongModel.QueryEqualToTagIsRedundant | js/song_search.js:443-455 | a query equal to one of the tags filters exactly like an empty query |
| SongModel.CategoryNameMatches | js/song_search.js:440-447 | a query found in the category name makes every song of the category match |
| SongModel.StrCompare | js/song_search.js:481 | the collation returns -1, 0 or 1, and 0 exactly for equal strings |
| SongModel.StrCompareFlip | js/song_search.js:481 | swapping the arguments negates the comparison |
| SongModel.StrCompareTransitive | js/song_search.js:481 | the collation order is transitive |
| SongModel.StrCompareIsComparator | js/song_search.js:481 | the collation is a consistent comparator |
| SongModel.TitleCompareLeavesUnsorted | js/song_search.js:462-466 | for two concrete songs, sorting with the comparator as written leaves display titles "z" before "b" |
| SongModel.LetterButtons | js/song_search.js:367-389 | the bar has 28 buttons: `All`, then `A` to `Z` in order, then `#` |
| SongModel.FirstChar | js/song_search.js:333-334 | the key is at most one character: the first of the trimmed, lower-cased display title |
| SongModel.FilterByLetter | js/song_search.js:329-341 | `All` keeps the list; otherwise the result is the order-preserving subsequence of exactly the songs the button accepts |
| SongModel.OneButtonPerKey | js/song_search.js:335-339 | each first character (also the empty one) is accepted by `#` or by exactly one letter, never both |
| SongModel.OneLetterButtonPerSong | js/song_search.js:333-339 | every song is shown under exactly one of the buttons `A` to `Z` and `#` |
| SongModel.ShownEntries | js/song_search.js:267-270 | at most one entry per rating |
| SongModel.TierPairs | js/song_search.js:262-268 | the five tiers are visited in the order Beginner, Easy, Medium, Hard, Challenge, each paired with its rating in the map, or undefined when the map lacks it |
| SongModel.ShownEntriesAreShown | js/song_search.js:267-270 | each entry is `name: rating` for a listed rating, in the given order |
| SongModel.TierListedIff | js/song_search.js:267-270 | a tier has an entry exactly when the map holds a rating for it that is truthy and not `N/A` or `Not available` |
| SongModel.TierLineIff | js/song_search.js:265-278 | a tier map yields a line exactly when some tier has a listed rating |
| SongModel.CollectTierEntries | js/song_search.js:266-271 | the tier loop pushes exactly the listed entries, in tier order |
| SongModel.CollectEntries | js/song_search.js:301-309 | the flat-map loop pushes exactly the listed entries, in key order |
| SongModel.TierSpan | js/song_search.js:265-278 | a single or double span is its label plus the entries joined by `' \| '`, and is there only when there is an entry |
| SongModel.DifficultyText | js/song_search.js:258-318 | the block is the single line, then the double line, then the flat-map line only when neither tier map exists |
| SongModel.FlatMapOnlyAsFallback | js/song_search.js:300 | with a single or double map, every line is labelled `Single: ` or `Doubles: ` and there are at most two |
| SongModel.FlatMapLine | js/song_search.js:300-316 | with only a flat map, the block is one unlabelled line of its listed ratings, if any |
| SongLoader.NumberEnd | js/song_search.js:145 | the leading `[0-9]+` is taken as long as it can be |
| SongLoader.CaptureStart | js/song_search.js:145 | the group starts after the number and a run of separator characters |
| SongLoader.NumberedCapture | js/song_search.js:145-146 | a capture needs a leading digit and a case-insensitive `.json` end; it is the text before the extension and holds no line terminator |
| SongLoader.NumberedCaptureMatches | js/song_search.js:145 | every name with a leading digit, a `.json` end and no line terminator matches the pattern |
| SongLoader.FileOrder | js/song_search.js:147 | the order is never negative, and it is 9999 for a name without a leading digit |
| SongLoader.NumberedNamePlain | js/song_search.js:145-147 | `<N><spaces><name>.json` yields category `name` and order `N` |
| SongLoader.NumberedNameDashed | js/song_search.js:145-147 | `<N><spaces><- or _><spaces><name>.json` yields category `name` and order `N` |
| SongLoader.NumberedName | js/song_search.js:145-147 | a numbered file name, with or without a dash or underscore, yields its name and its number |
| SongLoader.StepmaniaFiles | js/song_search.js:103-140 | the list has 36 names, the `i`-th numbered `i + 1` before its title |
| SongLoader.NumberedFileOrder | js/song_search.js:147 | the `i`-th hard-coded name has order `i + 1` |
| SongLoader.NumberedFileName | js/song_search.js:145-146 | the `i`-th hard-coded name yields its title |
| SongLoader.StepmaniaFilesNumbered | js/song_search.js:103-147 | the hard-coded names carry the numbers 1 to 36 in list order |
| SongLoader.StepmaniaLastName | js/song_search.js:139-146 | the last name, with no space after its dash, still yields its plain title |
| SongLoader.LastSegment | js/song_search.js:175 | `split('/').pop()` is the slash-free suffix after the last slash |
| SongLoader.LastSegmentAfterSlash | js/song_search.js:175 | the last segment of `dirs/base` is `base` when `base` has no slash |
| SongLoader.FirstJsonAtEnd | js/song_search.js:175 | when `name` has no `.json`, `replace('.json', '')` on `name.json` gives `name` |
| SongLoader.ManifestName | js/song_search.js:175 | a manifest entry `dirs/name.json` gives category `name` |
| SongLoader.FetchedNumbered | js/song_search.js:141-149 | one result per listed file, in list order |
| SongLoader.FetchedOk | js/song_search.js:142-148 | a non-null result comes from an OK answer and carries the file's name, data and number |
| SongLoader.ByOrderIsComparator | js/song_search.js:151 | `a.order - b.order` is a consistent comparator |
| SongLoader.NumberedResults | js/song_search.js:150-151 | the non-null results, sorted by number, as a rearrangement of what was fetched |
| SongLoader.NumberedResultsFetched | js/song_search.js:141-151 | every result comes from a listed file that answered OK, with that file's name, data and number |
| SongLoader.AscendingListKeepsOrder | js/song_search.js:151 | when the numbers already ascend along the list, sorting keeps list order |
| SongLoader.Names | js/song_search.js:153 | the recorded order names the results one to one, in result order |
| SongLoader.Unnumbered | js/song_search.js:154 | the returned categories are the results without their numbers |
| SongLoader.FetchFolder | js/song_search.js:101-158 | other folders give nothing; the Stepmania folder rejects exactly when one request rejects, else gives its sorted results and records their names |
| SongLoader.StepmaniaKeepsListOrder | js/song_search.js:103-153 | the Stepmania categories come back in list order, minus the files that did not answer OK |
| SongLoader.FetchedListed | js/song_search.js:170-177 | one result per JSON manifest entry, in manifest order |
| SongLoader.JsonEntries | js/song_search.js:170 | the kept entries are exactly the manifest entries that end in `.json` |
| SongLoader.FetchRecursively | js/song_search.js:161-189 | with an OK manifest the listed files are used, otherwise the flat loader |
| SongLoader.RecursiveOutcome | js/song_search.js:161-189 | only the hard-coded Stepmania path can reject or record a category order |
| SongLoader.ManifestCategoriesListed | js/song_search.js:166-178 | every manifest category comes from a listed JSON entry that answered OK, named after that entry |
| SongSearch.GameSource | js/song_search.js:78-95 | exactly four games have a source, and only Dance Dance Revolution uses the Stepmania folder |
| SongSearch.SurvivorsAreTwoFilters | js/song_search.js:430-458 | the survivors are the difficulty filter (only with a recorded order) followed by the match filter |
| SongSearch.SurvivorsIff | js/song_search.js:429-458 | a song survives exactly when it is in the category, has difficulty data if an order is recorded, and matches |
| SongSearch.RenderedCategory | js/song_search.js:460-468 | a category is rendered exactly when it has a survivor, and then it holds a rearrangement of its survivors |
| SongSearch.ListedPresent | js/song_search.js:478 | exactly the listed categories that are present, in declared order |
| SongSearch.HeaderNamesOrder | js/song_search.js:473-482 | the headers follow the Stepmania order when it is recorded and names a present category, else ascending name order |
| SongSearch.CategoryOrderUnique | js/song_search.js:473-482 | the ordering rule admits exactly one list of headers |
| SongSearch.ScreenForDisplays | js/song_search.js:484-503 | the computed screen obeys the display rule: categories in header order, or the criteria notice, or "no songs available" |
| SongSearch.DisplaysOnlyScreenFor | js/song_search.js:484-503 | the display rule describes no other screen |
| SongSearch.RenderedArePermutations | js/song_search.js:460-467 | every rendered category is non-empty and a rearrangement of its survivors |
| SongSearch.UnlistedCategoryHidden | js/song_search.js:475-478 | under the Stepmania order, a category missing from it is not shown |
| SongSearch.AlphabeticalWhenNotStepmania | js/song_search.js:480-481 | otherwise every category with a survivor is shown, in strictly ascending name order |
| SongSearch.RecordedOrderHidesUnratedSongs | js/song_search.js:430-431 | once an order is recorded, a song without difficulty data is never shown, in any game |
| SongSearch.TagAsQueryAddsNothing | js/song_search.js:443-455 | a query equal to a tag renders the same categories as an empty query |
| SongSearch.TermAsQueryAddsNothing | js/song_search.js:603-609 | right after a term is added, clearing the input leaves the screen as it is |
| SongSearch.KeysOf | js/song_search.js:475 | `Object.keys` lists each key once and no other |
| SongSearch.CollectCategories | js/song_search.js:422-470 | the category loop builds exactly the categories to render |
| SongSearch.HeaderOrder | js/song_search.js:473-482 | `sortedCategoryNames` is the header order |
| SongSearch.FilterView | js/song_search.js:415-563 | the body of `applyFilter` computes the screen for the catalogue, order, input and terms |
| SongSearch.Collect | js/song_search.js:216-218 | the store holds exactly the loaded category names |
| SongSearch.LaterCategoryWins | js/song_search.js:216-218 | a repeated category name keeps the data of its last occurrence |
| SongSearch.EmptyCatalogueScreen | js/song_search.js:494-499 | nothing loaded and no filter shows only "no songs available" |
| SongSearch.SongSearcher.constructor | js/song_search.js:644-677 | the loaded page has no catalogue, terms, input or order, and shows the loading message |
| SongSearch.SongSearcher.UpdateSongSearcherUI | js/song_search.js:53-70 | a non-empty loading message becomes "loading songs"; nothing else changes |
| SongSearch.SongSearcher.UpdateClearButtonVisibility | js/song_search.js:590-598 | the clear button shows exactly when there is a term or a non-blank input |
| SongSearch.SongSearcher.ApplyFilter | js/song_search.js:415-563 | the screen is rebuilt from the catalogue, order, input and terms; the rest of the state is kept |
| SongSearch.SongSearcher.AddFilterTerm | js/song_search.js:603-611 | a blank input changes nothing; otherwise the trimmed input joins the terms, the input is emptied and the screen follows |
| SongSearch.SongSearcher.RemoveFilterTerm | js/song_search.js:577-581 | only that term is removed; the screen and the clear button follow |
| SongSearch.SongSearcher.ClearFilters | js/song_search.js:627-633 | no terms and no input remain; the clear button hides and the screen follows |
| SongSearch.SongSearcher.InputChanged | js/song_search.js:636-639 | the screen and the clear button follow the new input |
| SongSearch.SongSearcher.LanguageChanged | js/song_search.js:667-671 | a language change re-renders the screen for the unchanged state |
| SongSearch.SongSearcher.LoadSongsForGame | js/song_search.js:192-233 | terms and input are emptied; the catalogue becomes the game's load result; the Stepmania order changes only on a Stepmania list load |
| SongSearch.SongSearcher.LoadFolder | js/song_search.js:210-220 | a rejected load leaves "loading songs"; a load stores the categories and renders them |
| SongSearch.SongSearcher.StoreCategories | js/song_search.js:216-218 | the store becomes the loaded categories, the last of a repeated name winning |
| SongSearch.SongSearcher.LoadFile | js/song_search.js:221-232 | the catalogue is one category named after the game, or empty on failure |
| YargSongs.FirstIndexOf | data/YARG/generate_yarg_json.py:37 | the first position of the separator, or the length when it does not occur |
| YargSongs.SplitOn | data/YARG/generate_yarg_json.py:34 | at least one part, none containing the separator |
| YargSongs.JoinSplitOn | data/YARG/generate_yarg_json.py:34 | splitting on `\n` and joining back gives the text |
| YargSongs.DropUnderscores | data/YARG/generate_yarg_json.py:51 | removing digit separators leaves only digits, and leaves plain digits as they are |
| YargSongs.ParseIntOfIntToString | data/YARG/generate_yarg_json.py:51 | `int(str(n)) == n` |
| YargSongs.ParseIntOfDigits | data/YARG/generate_yarg_json.py:51 | a decimal spelling, with or without a minus sign, parses to its value |
| YargSongs.DiffValueIsParsedOrMinusOne | data/YARG/generate_yarg_json.py:49-73 | a `diff_*` value is the parsed integer, else -1; the `'-1'` special case changes nothing |
| YargSongs.StoreField | data/YARG/generate_yarg_json.py:41-73 | storing a key changes exactly its field: the value, its boolean or its integer |
| YargSongs.ParsedFields | data/YARG/generate_yarg_json.py:34-73 | each field is decided by the last line carrying its key, or keeps its default |
| YargSongs.NoKeyLinesGiveDefaults | data/YARG/generate_yarg_json.py:17-27 | text without key lines parses to the defaults |
| YargSongs.NoEntryNoValue | data/YARG/generate_yarg_json.py:36 | without key lines no field has a value |
| YargSongs.LineEntryExample | data/YARG/generate_yarg_json.py:36-39 | a line splits at its first `=` with a lower-cased key; a line without `=` is ignored |
| YargSongs.ParseIniFile | data/YARG/generate_yarg_json.py:15-79 | an unreadable file gives None, otherwise the fields after applying every line in order |
| YargSongs.HasAudioFile | data/YARG/generate_yarg_json.py:6-13 | true exactly when some name, lower-cased, ends with one of the seven audio extensions |
| YargSongs.AudioNameIgnoresCase | data/YARG/generate_yarg_json.py:11 | the extension test ignores letter case |
| YargSongs.NonEmpty | data/YARG/generate_yarg_json.py:120-121 | an empty artist or album becomes None, any other value is kept |
| YargSongs.FolderSongs | data/YARG/generate_yarg_json.py:93-131 | one outcome per folder of the walk |
| YargSongs.FolderSongsAt | data/YARG/generate_yarg_json.py:93-131 | the `i`-th outcome is what the `i`-th folder yields |
| YargSongs.FolderSongIff | data/YARG/generate_yarg_json.py:97-130 | a folder yields a record exactly when it has a readable `song.ini`, an audio file, a non-empty name and a difficulty other than -1; the record renames the fields |
| YargSongs.ScanSongsIff | data/YARG/generate_yarg_json.py:93-131 | a record is in the catalogue exactly when some folder yields it |
| YargSongs.MissingRootGivesNothing | data/YARG/generate_yarg_json.py:86-88 | a missing root gives no songs |
| YargSongs.ScanFolder | data/YARG/generate_yarg_json.py:95-131 | the loop body gives exactly the folder's record |
| YargSongs.ScanYargSongs | data/YARG/generate_yarg_json.py:81-139 | the scan gives the records of the folders in walk order |
| EventLoader.Midnight | js/event-loader.js:71-72 | `setHours(0, 0, 0, 0)` gives the start of the day the time falls on |
| EventLoader.PastIffLaterDay | js/event-loader.js:78-88 | an event is past exactly from the day after its ending day, so one that ends today is still upcoming |
| EventLoader.SplitPartitions | js/event-loader.js:74-90 | the loop puts each event into exactly one list, by the past rule, in list order |
| EventLoader.EventComparators | js/event-loader.js:93-96 | both date comparators are consistent |
| EventLoader.Categorized | js/event-loader.js:70-97 | each event is in exactly one list, the lengths add up, upcoming ascend by start and past descend by end |
| EventLoader.LoadEventData | js/event-loader.js:57-67 | a record only for an OK response with a body, null otherwise |
| EventLoader.LoadedData | js/event-loader.js:16-21 | one load result per folder, in folder order |
| EventLoader.LoadedEventsIff | js/event-loader.js:16-21 | a record is pushed exactly when some folder answered OK with it; nulls are never pushed |
| EventLoader.EventManager.constructor | js/event-loader.js:3-7 | all three lists start empty |
| EventLoader.EventManager.CategorizeEvents | js/event-loader.js:70-97 | both lists are rebuilt from `events`, which is kept |
| EventLoader.EventManager.PushLoaded | js/event-loader.js:16-21 | the non-null records are appended to `events` in folder order |
| EventLoader.EventManager.LoadAllEvents | js/event-loader.js:10-42 | upcoming records, then past records, then the split; a throwing fetch returns false and skips the split |
| EventLoader.MonthAbbreviation | js/event-loader.js:247-250 | defined exactly for the months 0 to 11 |
| EventLoader.MonthAbbreviationsDistinct | js/event-loader.js:248 | the twelve abbreviations are three capital letters each and all differ |
| EventLoader.MonthAbbreviationExample | js/event-loader.js:247-250 | month 0 is JAN, month 11 is DEZ, month 12 is undefined |
| EventLoader.SingleDateIffSameDay | js/event-loader.js:252-258 | the text is a single date exactly when start and end fall on the same day |
| EventLoader.RangeShowsBothEnds | js/event-loader.js:255-257 | the range starts with the start date and ends with the end date |
| EmailCheck.PlainSlice | js/events.js:288 | `[^\s@]+` matches a slice exactly when it is non-empty and free of whitespace and `@` |
| EmailCheck.ValidIsWellFormed | js/events.js:287-290 | an accepted address has no whitespace, exactly one `@` with text before it, and a `.` inside what follows |
| EmailCheck.WellFormedIsValid | js/events.js:287-290 | every address meeting those conditions is accepted |
| EmailCheck.IsValidEmailIff | js/events.js:287-290 | the regular expression accepts exactly the well-formed addresses |
| EmailCheck.EmailAccepted | js/events.js:288 | `a@b.c` and `a@b..c` are accepted |
| EmailCheck.EmailRejected | js/events.js:288 | `@b.c`, `a@b.` and `a@b` are rejected |
| EmailCheck.EmailRejectedChars | js/events.js:288 | an address with a space or a second `@` is rejected |
| Language.OtherFlips | js/script.js:126-128 | the other language is a language, differs, and flipping twice gives back the first |
| Language.TablesAgree | js/script.js:36-71 | exactly two tables with the same keys, and every key that `updateContent` reads is defined in both |
| Language.LanguageSwitcher.constructor | js/script.js:73-137 | the page starts in Portuguese with the flag offering English |
| Language.LanguageSwitcher.GetCurrentLang | js/script.js:74 | reports the current language, which is always one of the two and the one on screen |
| Language.LanguageSwitcher.UpdateContent | js/script.js:76-114 | the page language and texts become those of the given language |
| Language.LanguageSwitcher.UpdateFlagButton | js/script.js:116-124 | the flag offers the language other than the given one |
| Language.LanguageSwitcher.Click | js/script.js:126-132 | a click flips the language to the one the flag offered and keeps the page consistent |
| NoDifficultyReport.FileEntries | stepmania_songs_no_difficulties.py:16-22 | at most one entry per song |
| NoDifficultyReport.FileEntriesIff | stepmania_songs_no_difficulties.py:16-22 | an entry is listed exactly when some song without difficulty data gives it |
| NoDifficultyReport.FileEntriesInOrder | stepmania_songs_no_difficulties.py:16-22 | the entries keep the in-file order of their songs |
| NoDifficultyReport.SkippedFilesAddNothing | stepmania_songs_no_difficulties.py:7-15 | a non-`.json` name or a file that fails to parse adds nothing, and the run goes on |
| NoDifficultyReport.ReportIff | stepmania_songs_no_difficulties.py:7-22 | an entry is reported exactly when a parsed `.json` file holds a song without difficulty data that gives it |
| NoDifficultyReport.ComplementOfSearcherFilter | stepmania_songs_no_difficulties.py:17 | a song the searcher drops is reported; one both reports and keeps has an empty difficulty field |
| NoDifficultyReport.EmptyObjectDisagreement | stepmania_songs_no_difficulties.py:17 | a song whose only difficulty field is `{}` is reported yet kept by the searcher |
| NoDifficultyReport.BuildReport | stepmania_songs_no_difficulties.py:4-22 | the nested loops produce the report, file by file and song by song |

## Left out

- DOM construction is not modelled: `innerHTML`, element creation, CSS classes, Bootstrap modals, carousels and listener wiring. The screen is modelled as category lists, notices and message keys.
- The letter bar's click state is not modelled. `renderSongsIntoCategory` wipes the bar that was just prepended, and that is view-tree behaviour. The letter filter itself is modelled as `SongModel.FilterByLetter`.
- Expanding and collapsing a category is not modelled, and neither are the `setTimeout` delays. A language change re-renders at once.
- `fetch`, `Promise.all` and JSON decoding are parameters (`Site`, `EventResponse`, `FolderResponse`). A body that is not JSON counts as a rejection.
- SongSearch.SongSearcher.LoadSongsForGame: a load runs as one atomic step. Interleavings at its `await` points are concurrency and are not modelled. That covers the race between two in-flight game loads, and also typing, adding or removing a term, clearing, or a language click while a load is in flight. After such an event the final render uses the state the event left, so "terms and input are emptied" holds only for a load that no UI event interrupts.
- `getEventFolders` returns hard-coded folder names. The model takes each folder's fetch outcome as given instead.
- `renderUpcomingEvents`, `renderPastEvents`, the event cards, `showEventDetails` and `showEventGallery` are DOM output and are not modelled.
- SongModel.StrCompare: `localeCompare` is modelled as lexicographic order on code points. Locale collation is not modelled.
- Text.Lower: lower-casing covers the ASCII letters only. This is exact for the Python keys, the boolean words and the audio extensions. It is weaker than JavaScript's Unicode `toLowerCase` for other text.
- SongModel.OneLetterButtonPerSong: the property rests on the ASCII-only `Text.Lower`. In JavaScript, a title starting with `İ` (U+0130) lower-cases to `i` followed by a combining dot. That key passes the `/[a-z]/` test, so `#` rejects it, yet it never equals a single letter, so the song is shown under no button.
- Lists.SortWithSorted: `Array.prototype.sort` is modelled as a stable insertion sort on a sequence, not an in-place sort of an array. Only the permutation holds for the song comparator as written.
- JavaScript object key order is not modelled. `Object.keys` and `for … in` are given as some order without repeats (`SongSearch.KeysOf`). The flat difficulty map is taken as a list of pairs in key order.
- Translation texts are not modelled. The tables of `js/script.js` are modelled by their key sets, and the searcher's messages by keys.
- The searcher's own `getCurrentLang` fallback for a page without the switcher is not modelled. Elements missing from a page are not modelled either; every translatable element is taken to be present.
- Console output is not modelled: `console.log`, Python `print`, and the error text in `parse_ini_file`.
- Python file handling is not modelled: `os.listdir` and `os.walk` order, `open` failures, `errors='ignore'` decoding, and `json.dump`. Listings are given as sequences.
- YargSongs.IniFile: the `song.ini` text is taken after text mode's universal-newline translation, which turns `\r\n` and a lone `\r` into `\n`. The parser then splits on `\n` only.
- YargSongs.DiffValue: Python's `int()` also accepts non-ASCII digits and surrounding whitespace. The model accepts only ASCII digits with an optional sign and single underscores. Stripped values carry no surrounding whitespace.
- SongModel.JsValue: a rating is `null`, a string or an integer. Fractional numbers such as `8.5`, booleans, arrays and objects are not modelled, though the source's truthiness test and `${value}` accept any JSON value.
- NoDifficultyReport: a catalogue whose JSON value is not a list of song objects is not modelled. Title and artist are taken as strings or missing.
- EventLoader.LoadEventData: an OK body is modelled as an event record or a falsy value (`null`, `false`, `0`, `""`). Any truthy body is pushed by the source, including one that is not an event record such as `{}` or `[1]`. That case is not modelled, and neither is what `categorizeEvents` then does with it.
- Dates are millisecond timestamps in one local time, with no time zones or daylight-saving jumps. An unparseable date (`Invalid Date`) is not modelled.
- `toLocaleDateString('pt-BR')` is a formatter parameter of `EventLoader.FormatDateRange`.
- `js/contact.js` and `data/Taiko no Tatsujin/taiko_csv_to_json_by_category.py` are not part of this model.
- `main` of `generate_yarg_json.py` is not modelled: the output path, the preview printing and the "no songs" exit.
