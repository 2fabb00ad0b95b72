/**
 * How the song searcher (js/song_search.js) finds its catalogue files:
 * the category name and order read off a numbered Stepmania file name,
 * the category name read off a manifest path, and the two folder loaders
 * with their fallback.
 *
 * Fetching is a parameter: a `Site` says what each URL answers. A request
 * either fails outright (the promise rejects, or the body is not JSON),
 * answers with a non-OK status, or answers with a body.
 */
module SongLoader {
  import opened Wrappers
  import opened Text
  import opened Lists
  import opened SongModel

  // ------------------------------------------------------------ file names

  /** The position just past the run of characters satisfying `p` that starts at `i`. */
  function RunEnd(s: string, i: nat, p: char -> bool): (j: nat)
    requires i <= |s|
    ensures i <= j <= |s|
    ensures forall k :: i <= k < j ==> p(s[k])
    ensures j == |s| || !p(s[j])
    decreases |s| - i
  {
    if i < |s| && p(s[i]) then RunEnd(s, i + 1, p) else i
  }

  /** A run is determined by its characters and the one that stops it. */
  lemma {:induction false} RunEndAt(s: string, i: nat, j: nat, p: char -> bool)
    requires i <= j <= |s|
    requires forall k :: i <= k < j ==> p(s[k])
    requires j == |s| || !p(s[j])
    ensures RunEnd(s, i, p) == j
    decreases j - i
  {
    if i < j {
      RunEndAt(s, i + 1, j, p);
    }
  }

  /** The end of the leading `[0-9]+`, taken as long as it can be. */
  function NumberEnd(file: string): (n: nat)
    ensures n <= |file| && AllDigits(file[..n])
    ensures n < |file| ==> !IsDigit(file[n])
  {
    var n := RunEnd(file, 0, IsDigit);
    assert forall k :: 0 <= k < n ==> file[..n][k] == file[k];
    n
  }

  /** A character `\s*[-_]?\s*` can take. */
  predicate IsSeparator(c: char) {
    IsJsSpace(c) || c == '-' || c == '_'
  }

  /** Where the captured group starts: after the number and `\s*[-_]?\s*`, each taken as long as it can be. */
  function CaptureStart(file: string): (k: nat)
    ensures NumberEnd(file) <= k <= |file|
    ensures forall i :: NumberEnd(file) <= i < k ==> IsSeparator(file[i])
  {
    var a := RunEnd(file, NumberEnd(file), IsJsSpace);
    var b := if a < |file| && (file[a] == '-' || file[a] == '_') then a + 1 else a;
    RunEnd(file, b, IsJsSpace)
  }

  /** `\.json` under the case-insensitive flag. */
  predicate IsJsonExtension(x: string) {
    |x| == 5 && x[0] == '.' && Lower(x[1..]) == "json"
  }

  lemma JsonExtensionLiteral()
    ensures IsJsonExtension(".json")
  {
    var l := Lower("json");
    assert l[0] == 'j' && l[1] == 's' && l[2] == 'o' && l[3] == 'n';
    assert ".json"[1..] == "json";
  }

  predicate HasJsonExtension(file: string) {
    |file| >= 5 && IsJsonExtension(file[|file| - 5..])
  }

  predicate NoLineTerminator(s: string) {
    forall i :: 0 <= i < |s| ==> !IsJsLineTerminator(s[i])
  }

  /**
   * The group captured by `/^[0-9]+\s*[-_]?\s*(.*)\.json$/i`, or `None`
   * when the name does not match. Each part of the pattern is greedy, and
   * a shorter choice for any of them only moves characters into the group,
   * so the match exists exactly when the greedy split leaves a group free
   * of line terminators in front of the extension.
   */
  function NumberedCapture(file: string): (r: Option<string>)
    ensures r.Some? ==> HasJsonExtension(file) && IsDigit(file[0])
    ensures r.Some? ==> NoLineTerminator(r.value) && EndsWith(file, r.value + file[|file| - 5..])
  {
    var k := CaptureStart(file);
    if NumberEnd(file) > 0 && k + 5 <= |file| && HasJsonExtension(file)
       && NoLineTerminator(file[k..|file| - 5])
    then
      assert file[..NumberEnd(file)][0] == file[0];
      assert file[k..] == file[k..|file| - 5] + file[|file| - 5..];
      Some(file[k..|file| - 5])
    else None
  }

  /**
   * A name that starts with a digit, ends in a `.json` extension in any
   * letter case and holds no line terminator always matches.
   */
  lemma NumberedCaptureMatches(file: string)
    requires file != [] && IsDigit(file[0]) && HasJsonExtension(file) && NoLineTerminator(file)
    ensures NumberedCapture(file).Some?
  {
    var dot := |file| - 5;
    assert file[dot] == file[dot..][0] == '.';
    assert !IsSeparator('.') && !IsDigit('.');
    var n := NumberEnd(file);
    assert n > 0;
    assert n <= dot;
    var k := CaptureStart(file);
    assert k <= dot;
    forall i | 0 <= i < dot - k ensures !IsJsLineTerminator(file[k..dot][i]) {
      assert file[k..dot][i] == file[k + i];
    }
  }

  /** `parseInt(file.match(/^([0-9]+)/)?.[1] || '9999', 10)`. */
  function FileOrder(file: string): (r: int)
    ensures r >= 0
    ensures file == [] || !IsDigit(file[0]) ==> r == 9999
  {
    var n := NumberEnd(file);
    if n > 0 then DigitsValue(file[..n]) else 9999
  }

  /** The category name: the captured group, otherwise the name with its first ".json" dropped. */
  function FileCategoryName(file: string): string {
    match NumberedCapture(file)
    case Some(name) => name
    case None => ReplaceFirst(file, ".json", "")
  }

  /** A name that cannot be absorbed by the number or the separator in front of it. */
  predicate PlainStart(name: string) {
    name == [] || !(IsSeparator(name[0]) || IsDigit(name[0]))
  }

  predicate AllJsSpace(s: string) {
    forall i :: 0 <= i < |s| ==> IsJsSpace(s[i])
  }

  /** The capture is determined by where the group starts. */
  lemma CaptureFrom(file: string, k: nat)
    requires NumberEnd(file) > 0 && CaptureStart(file) == k && k + 5 <= |file|
    requires HasJsonExtension(file) && NoLineTerminator(file[k..|file| - 5])
    ensures NumberedCapture(file) == Some(file[k..|file| - 5])
  {
  }

  lemma NumberEndAt(file: string, n: nat)
    requires n <= |file| && AllDigits(file[..n]) && (n == |file| || !IsDigit(file[n]))
    ensures NumberEnd(file) == n
  {
    assert forall k :: 0 <= k < n ==> file[k] == file[..n][k];
    RunEndAt(file, 0, n, IsDigit);
  }

  /** With no dash, the group starts after the spaces that follow the number. */
  lemma CaptureStartPlain(file: string, k: nat)
    requires NumberEnd(file) <= k < |file|
    requires forall i :: NumberEnd(file) <= i < k ==> IsJsSpace(file[i])
    requires !IsSeparator(file[k])
    ensures CaptureStart(file) == k
  {
    RunEndAt(file, NumberEnd(file), k, IsJsSpace);
    RunEndAt(file, k, k, IsJsSpace);
  }

  /** With a dash or underscore at `d`, the group starts after the spaces that follow it. */
  lemma CaptureStartDashed(file: string, d: nat, k: nat)
    requires NumberEnd(file) <= d < k < |file|
    requires forall i :: NumberEnd(file) <= i < d ==> IsJsSpace(file[i])
    requires file[d] == '-' || file[d] == '_'
    requires forall i :: d < i < k ==> IsJsSpace(file[i])
    requires !IsJsSpace(file[k])
    ensures CaptureStart(file) == k
  {
    RunEndAt(file, NumberEnd(file), d, IsJsSpace);
    RunEndAt(file, d + 1, k, IsJsSpace);
  }

  /** Once the group is known to start at `k` in front of `name + ".json"`, the category name is `name`. */
  lemma NameAt(file: string, k: nat, name: string)
    requires NumberEnd(file) > 0 && CaptureStart(file) == k && k <= |file|
    requires file[k..] == name + ".json" && NoLineTerminator(name)
    ensures FileCategoryName(file) == name
  {
    assert file[k..|file| - 5] == name;
    assert file[|file| - 5..] == ".json";
    JsonExtensionLiteral();
    CaptureFrom(file, k);
  }

  /** The first character of `name + ".json"` is not a separator. */
  lemma BodyStart(name: string)
    requires PlainStart(name)
    ensures !IsSeparator((name + ".json")[0]) && !IsDigit((name + ".json")[0])
  {
    if name == [] {
      assert (name + ".json")[0] == '.';
    } else {
      assert (name + ".json")[0] == name[0];
    }
  }

  /** `<number><spaces><name>.json` */
  lemma NumberedNamePlain(digits: string, spaces: string, name: string)
    requires digits != [] && AllDigits(digits) && AllJsSpace(spaces)
    requires PlainStart(name) && NoLineTerminator(name)
    ensures FileCategoryName(digits + spaces + (name + ".json")) == name
    ensures FileOrder(digits + spaces + (name + ".json")) == DigitsValue(digits)
  {
    var body := name + ".json";
    var file := digits + spaces + body;
    var n := |digits|;
    var k := n + |spaces|;
    assert file[..n] == digits;
    assert file[k..] == body;
    BodyStart(name);
    assert forall i :: n <= i < k ==> file[i] == spaces[i - n];
    assert file[n] == if spaces == [] then body[0] else spaces[0];
    NumberEndAt(file, n);
    CaptureStartPlain(file, k);
    NameAt(file, k, name);
  }

  /** `<number><spaces><dash or underscore><spaces><name>.json` */
  lemma NumberedNameDashed(digits: string, before: string, dash: char, after: string, name: string)
    requires digits != [] && AllDigits(digits) && AllJsSpace(before) && AllJsSpace(after)
    requires dash == '-' || dash == '_'
    requires PlainStart(name) && NoLineTerminator(name)
    ensures FileCategoryName(digits + before + [dash] + after + (name + ".json")) == name
    ensures FileOrder(digits + before + [dash] + after + (name + ".json")) == DigitsValue(digits)
  {
    var body := name + ".json";
    var file := digits + before + [dash] + after + body;
    var n := |digits|;
    var d := n + |before|;
    var k := d + 1 + |after|;
    assert file[..n] == digits;
    assert file[k..] == body;
    BodyStart(name);
    assert forall i :: n <= i < d ==> file[i] == before[i - n];
    assert forall i :: d < i < k ==> file[i] == after[i - d - 1];
    assert file[d] == dash;
    assert file[n] == if before == [] then dash else before[0];
    NumberEndAt(file, n);
    CaptureStartDashed(file, d, k);
    NameAt(file, k, name);
  }

  /**
   * A file named `<number><spaces><dash or underscore or nothing><spaces><name>.json`
   * yields the name and the number's value.
   */
  lemma NumberedName(digits: string, before: string, dash: string, after: string, name: string)
    requires digits != [] && AllDigits(digits)
    requires AllJsSpace(before) && AllJsSpace(after)
    requires dash == "" || dash == "-" || dash == "_"
    requires PlainStart(name) && NoLineTerminator(name)
    ensures FileCategoryName(digits + before + dash + after + name + ".json") == name
    ensures FileOrder(digits + before + dash + after + name + ".json") == DigitsValue(digits)
  {
    if dash == "" {
      assert digits + before + dash + after + name + ".json" == digits + (before + after) + (name + ".json");
      assert AllJsSpace(before + after);
      NumberedNamePlain(digits, before + after, name);
    } else {
      assert digits + before + dash + after + name + ".json" == digits + before + [dash[0]] + after + (name + ".json");
      NumberedNameDashed(digits, before, dash[0], after, name);
    }
  }

  /** The titles of the Stepmania catalogue files, which the site cannot list by itself. */
  const StepmaniaTitles: seq<string> := [
    "Anime Channel",
    "KPOP Channel",
    "World POP Channel",
    "JPOP Channel",
    "Vocaloid Channel",
    "Touhou Channel",
    "Games Channel",
    "Dance Dance Revolution 1st Mix",
    "Dance Dance Revolution 2nd Mix",
    "Dance Dance Revolution 2nd Mix Club & Link Versions",
    "Dance Dance Revolution 3rd Mix",
    "Dance Dance Revolution 3rd Mix Plus & Korea Versions",
    "Dance Dance Revolution 4th Mix",
    "Dance Dance Revolution 4th Mix Plus",
    "Dance Dance Revolution 5th Mix",
    "Dance Dance Revolution 6th Mix - MAX",
    "Dance Dance Revolution 7th Mix - MAX2",
    "Dance Dance Revolution 8th Mix -  Extreme",
    "Dance Dance Revolution SuperNOVA",
    "Dance Dance Revolution SuperNOVA 2",
    "Dance Dance Revolution X",
    "Dance Dance Revolution X2",
    "Dance Dance Revolution X3",
    "Dance Dance Revolution 2013",
    "Dance Dance Revolution 2014",
    "Dance Dance Revolution A",
    "Dance Dance Revolution A20",
    "Dance Dance Revolution A20 Plus",
    "Dance Dance Revolution A3",
    "Dance Dance Revolution Grand Prix",
    "Dance Dance Revolution PS1 Exclusives",
    "Dance Dance Revolution PS2 Exclusives",
    "Dance Dance Revolution PS3 Exclusives",
    "Dance Dance Revolution Xbox Exclusives",
    "Dance Dance Revolution Xbox 360 Exclusives",
    "Dance Dance Revolution Wii Exclusives"
  ]

  /** The spaces after the dash in a Stepmania file name: the last one has none. */
  function StepmaniaGap(i: nat): string {
    if i == 35 then "" else " "
  }

  /** The `i`-th hard-coded file name: its number, a space, a dash, the gap, the title and the extension. */
  function NumberedFile(i: nat, title: string): string {
    NatToString(i + 1) + " " + ['-'] + StepmaniaGap(i) + (title + ".json")
  }

  /**
   * The hard-coded file names, from "1 - Anime Channel.json" to
   * "36 -Dance Dance Revolution Wii Exclusives.json".
   */
  function StepmaniaFiles(): (files: seq<string>)
    ensures |files| == |StepmaniaTitles|
    ensures forall i :: 0 <= i < |files| ==> files[i] == NumberedFile(i, StepmaniaTitles[i])
  {
    seq(|StepmaniaTitles|, i requires 0 <= i < |StepmaniaTitles| => NumberedFile(i, StepmaniaTitles[i]))
  }

  /** The `i`-th file name carries the number `i + 1`. */
  lemma NumberedFileOrder(i: nat, title: string)
    ensures FileOrder(NumberedFile(i, title)) == i + 1
  {
    var digits := NatToString(i + 1);
    var file := NumberedFile(i, title);
    assert file[..|digits|] == digits;
    assert file[|digits|] == ' ';
    NumberEndAt(file, |digits|);
    DigitsValueOfNatToString(i + 1);
  }

  /** The `i`-th file name yields its title whenever the title cannot be absorbed by the separator. */
  lemma NumberedFileName(i: nat, title: string)
    requires PlainStart(title) && NoLineTerminator(title)
    ensures FileCategoryName(NumberedFile(i, title)) == title
  {
    assert AllJsSpace(" ") && AllJsSpace(StepmaniaGap(i));
    NumberedNameDashed(NatToString(i + 1), " ", '-', StepmaniaGap(i), title);
  }

  /** The hard-coded names carry the numbers 1 to 36 in list order. */
  lemma StepmaniaFilesNumbered()
    ensures forall i :: 0 <= i < |StepmaniaFiles()| ==> FileOrder(StepmaniaFiles()[i]) == i + 1
  {
    forall i | 0 <= i < |StepmaniaFiles()| ensures FileOrder(StepmaniaFiles()[i]) == i + 1 {
      NumberedFileOrder(i, StepmaniaTitles[i]);
    }
  }

  /** The last file, with no space after its dash, still yields its plain title. */
  lemma StepmaniaLastName()
    ensures FileCategoryName(StepmaniaFiles()[35]) == "Dance Dance Revolution Wii Exclusives"
  {
    var t := "Dance Dance Revolution Wii Exclusives";
    assert StepmaniaTitles[35] == t;
    assert forall k :: 0 <= k < |t| ==> t[k] == ' ' || 'A' <= t[k] <= 'z';
    NumberedFileName(35, t);
  }

  /** `relPath.split('/').pop()`: what follows the last slash. */
  function LastSegment(path: string): (r: string)
    ensures EndsWith(path, r)
    ensures forall i :: 0 <= i < |r| ==> r[i] != '/'
    ensures |r| < |path| ==> path[|path| - |r| - 1] == '/'
  {
    if path == [] || path[|path| - 1] == '/' then []
    else
      var r := LastSegment(path[..|path| - 1]) + [path[|path| - 1]];
      assert path[|path| - |r|..] == path[..|path| - 1][|path| - |r|..] + [path[|path| - 1]];
      r
  }

  /** The category name of a manifest entry: its last segment with the first ".json" dropped. */
  function ManifestCategoryName(relPath: string): string {
    ReplaceFirst(LastSegment(relPath), ".json", "")
  }

  /** An entry `<dirs>/<name>.json` is named `<name>` when the name has no slash and no ".json". */
  lemma ManifestName(dirs: string, name: string)
    requires forall i :: 0 <= i < |name| ==> name[i] != '/'
    requires !Contains(name, ".json")
    ensures ManifestCategoryName(dirs + "/" + name + ".json") == name
  {
    var path := dirs + "/" + name + ".json";
    var base := name + ".json";
    assert path == dirs + "/" + base;
    LastSegmentAfterSlash(dirs, base);
    FirstJsonAtEnd(name);
  }

  lemma {:induction false} LastSegmentAfterSlash(dirs: string, base: string)
    requires forall i :: 0 <= i < |base| ==> base[i] != '/'
    ensures LastSegment(dirs + "/" + base) == base
  {
    var path := dirs + "/" + base;
    if base == [] {
      assert path[|path| - 1] == '/';
    } else {
      var init := base[..|base| - 1];
      LastSegmentAfterSlash(dirs, init);
      assert path[..|path| - 1] == dirs + "/" + init;
      assert init + [base[|base| - 1]] == base;
    }
  }

  /** ".json" cannot overlap itself, so in `name + ".json"` it first occurs at the appended one. */
  lemma FirstJsonAtEnd(name: string)
    requires !Contains(name, ".json")
    ensures ReplaceFirst(name + ".json", ".json", "") == name
  {
    var s := name + ".json";
    forall j | 0 <= j < |name| ensures !OccursAt(s, ".json", j) {
      if j + 5 <= |name| {
        assert s[j..j + 5] == name[j..j + 5];
        assert !OccursAt(name, ".json", j);
      } else {
        var t := |name| - j;
        assert s[j..j + 5][t] == '.';
        assert ".json"[t] != '.';
      }
    }
    assert s[|name|..] == ".json";
    assert OccursAt(s, ".json", |name|);
    assert s[..|name|] == name;
  }

  // --------------------------------------------------------- folder loading

  datatype Response<T> = NotOk | Rejected | Ok(body: T)

  /** What the site answers for each URL: manifests list paths, catalogue files list songs. */
  datatype Site = Site(
    manifest: string -> Response<seq<string>>,
    catalogue: string -> Response<seq<Song>>)

  datatype Category = Category(categoryName: string, data: seq<Song>)

  datatype NumberedCategory = NumberedCategory(categoryName: string, data: seq<Song>, order: int)

  /**
   * The outcome of a folder load: it rejects, or it yields categories and,
   * for the hard-coded Stepmania list, the category order it records.
   */
  datatype Loaded = Failed | Loaded(categories: seq<Category>, recordedOrder: Option<seq<string>>)

  const StepmaniaFolder: string := "data/Stepmania/"

  predicate AnyRejected(folder: string, files: seq<string>, site: Site) {
    exists i :: 0 <= i < |files| && site.catalogue(folder + files[i]).Rejected?
  }

  /** One numbered file: `null` unless the answer was OK. */
  function FetchNumbered(folder: string, file: string, site: Site): Option<NumberedCategory> {
    match site.catalogue(folder + file)
    case Ok(data) => Some(NumberedCategory(FileCategoryName(file), data, FileOrder(file)))
    case _ => None
  }

  /** The per-file results, in list order. */
  function FetchedNumbered(folder: string, files: seq<string>, site: Site): (r: seq<Option<NumberedCategory>>)
    ensures |r| == |files|
    ensures forall i :: 0 <= i < |r| ==> r[i] == FetchNumbered(folder, files[i], site)
  {
    seq(|files|, i requires 0 <= i < |files| => FetchNumbered(folder, files[i], site))
  }

  /** `(a, b) => a.order - b.order` */
  function ByOrder(a: NumberedCategory, b: NumberedCategory): int {
    a.order - b.order
  }

  lemma ByOrderIsComparator()
    ensures IsComparator(ByOrder)
  {
  }

  /** The fetched files with nulls dropped, sorted by their number. */
  function NumberedResults(folder: string, files: seq<string>, site: Site): (r: seq<NumberedCategory>)
    ensures SortedBy(r, ByOrder)
    ensures multiset(r) == multiset(Somes(FetchedNumbered(folder, files, site)))
  {
    var fetched := FetchedNumbered(folder, files, site);
    ByOrderIsComparator();
    SortWithSorted(Somes(fetched), ByOrder);
    SortWithPermutes(Somes(fetched), ByOrder);
    SortWith(Somes(fetched), ByOrder)
  }

  /** A file in the result answered OK, and carries its name, data and number. */
  lemma NumberedResultsFetched(folder: string, files: seq<string>, site: Site, c: NumberedCategory)
    requires c in NumberedResults(folder, files, site)
    ensures exists i :: 0 <= i < |files| && site.catalogue(folder + files[i]) == Ok(c.data)
                        && c.categoryName == FileCategoryName(files[i]) && c.order == FileOrder(files[i])
  {
    var fetched := FetchedNumbered(folder, files, site);
    assert c in multiset(NumberedResults(folder, files, site));
    SomesMember(fetched, c);
    var i :| 0 <= i < |fetched| && fetched[i] == Some(c);
    FetchedOk(folder, files[i], site, c);
  }

  lemma FetchedOk(folder: string, file: string, site: Site, c: NumberedCategory)
    requires FetchNumbered(folder, file, site) == Some(c)
    ensures site.catalogue(folder + file) == Ok(c.data)
    ensures c.categoryName == FileCategoryName(file) && c.order == FileOrder(file)
  {
  }

  /** When the numbers already ascend along the list, the sort keeps list order. */
  lemma {:induction false} AscendingListKeepsOrder(folder: string, files: seq<string>, site: Site)
    requires forall i :: 0 <= i < |files| ==> FileOrder(files[i]) == i + 1
    ensures NumberedResults(folder, files, site) == Somes(FetchedNumbered(folder, files, site))
  {
    var fetched := FetchedNumbered(folder, files, site);
    var lt := (a: NumberedCategory, b: NumberedCategory) => a.order < b.order;
    forall i, j | 0 <= i < j < |fetched| && fetched[i].Some? && fetched[j].Some?
      ensures lt(fetched[i].value, fetched[j].value)
    {
      assert fetched[i].value.order == i + 1;
      assert fetched[j].value.order == j + 1;
    }
    SomesKeepOrder(fetched, lt);
    SortWithPresorted(Somes(fetched), ByOrder);
  }

  function Names(r: seq<NumberedCategory>): (names: seq<string>)
    ensures |names| == |r| && forall i :: 0 <= i < |r| ==> names[i] == r[i].categoryName
  {
    seq(|r|, i requires 0 <= i < |r| => r[i].categoryName)
  }

  function Unnumbered(r: seq<NumberedCategory>): (cats: seq<Category>)
    ensures |cats| == |r|
    ensures forall i :: 0 <= i < |r| ==> cats[i] == Category(r[i].categoryName, r[i].data)
  {
    seq(|r|, i requires 0 <= i < |r| => Category(r[i].categoryName, r[i].data))
  }

  /**
   * `fetchJsonFilesInFolder`: only the Stepmania folder has a file list; one
   * rejected request rejects the whole load. The categories come back
   * sorted by their number, and their names are recorded as the order.
   */
  function FetchFolder(folder: string, site: Site): (r: Loaded)
    ensures folder != StepmaniaFolder ==> r == Loaded([], None)
    ensures r.Failed? <==> folder == StepmaniaFolder && AnyRejected(folder, StepmaniaFiles(), site)
    ensures r.Loaded? && folder == StepmaniaFolder ==>
      var results := NumberedResults(folder, StepmaniaFiles(), site);
      r.categories == Unnumbered(results) && r.recordedOrder == Some(Names(results))
  {
    if folder != StepmaniaFolder then Loaded([], None)
    else if AnyRejected(folder, StepmaniaFiles(), site) then Failed
    else
      var results := NumberedResults(folder, StepmaniaFiles(), site);
      Loaded(Unnumbered(results), Some(Names(results)))
  }

  /**
   * The hard-coded list is already in number order, so the Stepmania
   * categories come back in list order, minus the files that did not
   * answer OK, and the recorded order names them in that order.
   */
  lemma StepmaniaKeepsListOrder(site: Site)
    ensures NumberedResults(StepmaniaFolder, StepmaniaFiles(), site)
         == Somes(FetchedNumbered(StepmaniaFolder, StepmaniaFiles(), site))
  {
    StepmaniaFilesNumbered();
    AscendingListKeepsOrder(StepmaniaFolder, StepmaniaFiles(), site);
  }

  /** One manifest entry: `null` unless the answer was OK. */
  function FetchListed(folder: string, relPath: string, site: Site): Option<Category> {
    match site.catalogue(folder + relPath)
    case Ok(data) => Some(Category(ManifestCategoryName(relPath), data))
    case _ => None
  }

  function FetchedListed(folder: string, listed: seq<string>, site: Site): (r: seq<Option<Category>>)
    ensures |r| == |listed|
    ensures forall i :: 0 <= i < |r| ==> r[i] == FetchListed(folder, listed[i], site)
  {
    seq(|listed|, i requires 0 <= i < |listed| => FetchListed(folder, listed[i], site))
  }

  /** `manifest.filter(f => f.endsWith('.json'))` */
  function JsonEntries(manifest: seq<string>): (r: seq<string>)
    ensures forall i :: 0 <= i < |r| ==> r[i] in manifest && EndsWith(r[i], ".json")
    ensures forall i :: 0 <= i < |manifest| && EndsWith(manifest[i], ".json") ==> manifest[i] in r
  {
    Filter(manifest, (p: string) => EndsWith(p, ".json"))
  }

  /**
   * `fetchJsonFilesRecursively`: the folder's manifest, when it answers and
   * every listed JSON file fetches without rejecting; otherwise the flat
   * loader, which only knows the Stepmania folder.
   */
  function FetchRecursively(folder: string, site: Site): (r: Loaded)
    ensures site.manifest(folder + "manifest.json").Ok? ==>
      var listed := JsonEntries(site.manifest(folder + "manifest.json").body);
      r == if AnyRejected(folder, listed, site) then FetchFolder(folder, site)
           else Loaded(Somes(FetchedListed(folder, listed, site)), None)
    ensures !site.manifest(folder + "manifest.json").Ok? ==> r == FetchFolder(folder, site)
  {
    match site.manifest(folder + "manifest.json")
    case Ok(manifest) =>
      var listed := JsonEntries(manifest);
      if AnyRejected(folder, listed, site) then FetchFolder(folder, site)
      else Loaded(Somes(FetchedListed(folder, listed, site)), None)
    case _ => FetchFolder(folder, site)
  }

  /** Only the hard-coded Stepmania path can reject or record a category order. */
  lemma RecursiveOutcome(folder: string, site: Site)
    ensures FetchRecursively(folder, site).Failed? ==> folder == StepmaniaFolder
    ensures FetchRecursively(folder, site).Loaded? && FetchRecursively(folder, site).recordedOrder.Some? ==>
      folder == StepmaniaFolder
  {
  }

  /** Every category of a manifest load comes from a listed JSON file that answered OK. */
  lemma ManifestCategoriesListed(folder: string, site: Site, c: Category)
    requires site.manifest(folder + "manifest.json").Ok?
    requires !AnyRejected(folder, JsonEntries(site.manifest(folder + "manifest.json").body), site)
    requires c in FetchRecursively(folder, site).categories
    ensures exists p :: p in site.manifest(folder + "manifest.json").body && EndsWith(p, ".json")
                       && site.catalogue(folder + p) == Ok(c.data) && c.categoryName == ManifestCategoryName(p)
  {
    var listed := JsonEntries(site.manifest(folder + "manifest.json").body);
    var fetched := FetchedListed(folder, listed, site);
    var j :| 0 <= j < |Somes(fetched)| && Somes(fetched)[j] == c;
    var k :| 0 <= k < |fetched| && fetched[k] == Some(c);
    assert fetched[k] == FetchListed(folder, listed[k], site);
  }
}
