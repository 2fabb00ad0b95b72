/**
 * The report of Stepmania songs without difficulty data
 * (stepmania_songs_no_difficulties.py): every song of every `.json`
 * catalogue file whose three difficulty fields are all missing or empty.
 *
 * The directory listing is given as a list of file names, each with the
 * result of parsing it (`None` when `json.load` raises); reading files and
 * writing the report are not modelled.
 */
module NoDifficultyReport {
  import opened Wrappers
  import opened Text
  import opened Lists
  import opened SongModel

  /** One catalogue file: its name and its songs, `None` when it is not valid JSON. */
  type CatalogueFile = (string, Option<seq<Song>>)

  /** One entry of the report. */
  datatype Entry = Entry(file: string, title: Option<string>, artist: Option<string>)

  /** Python falsiness of an optional object: missing, `None` or `{}`. */
  predicate FalsyMap<K, V>(field: Option<map<K, V>>) {
    field.None? || field.value == map[]
  }

  /** `not song.get('single_difficulties') and not song.get('double_difficulties') and not song.get('difficulties')` */
  predicate NoDifficulties(song: Song) {
    FalsyMap(song.singleDifficulties) && FalsyMap(song.doubleDifficulties)
    && (song.difficulties.None? || song.difficulties.value == [])
  }

  function EntryOf(file: string, song: Song): Entry {
    Entry(file, song.title, song.artist)
  }

  /** The entries, in song order, of the songs of one file that have no difficulty data. */
  function FileEntries(file: string, songs: seq<Song>): (r: seq<Entry>)
    ensures |r| <= |songs|
  {
    if songs == [] then []
    else
      var init, song := songs[..|songs| - 1], songs[|songs| - 1];
      FileEntries(file, init) + (if NoDifficulties(song) then [EntryOf(file, song)] else [])
  }

  /** What one directory entry adds: nothing for a name without `.json` or a file that fails to parse. */
  function FileReport(f: CatalogueFile): seq<Entry> {
    if EndsWith(f.0, ".json") && f.1.Some? then FileEntries(f.0, f.1.value) else []
  }

  /** `output`: the files' entries in listing order. */
  function Report(files: seq<CatalogueFile>): seq<Entry> {
    FlatMap(files, FileReport)
  }

  /** An entry stands for exactly one song without difficulty data of its file. */
  lemma {:induction false} FileEntriesIff(file: string, songs: seq<Song>, e: Entry)
    ensures e in FileEntries(file, songs) <==>
      exists j :: 0 <= j < |songs| && NoDifficulties(songs[j]) && e == EntryOf(file, songs[j])
  {
    if songs != [] {
      var init := songs[..|songs| - 1];
      FileEntriesIff(file, init, e);
      assert forall j :: 0 <= j < |init| ==> init[j] == songs[j];
    }
  }

  /** The entries keep the order of the songs they come from. */
  lemma {:induction false} FileEntriesInOrder(file: string, songs: seq<Song>)
    ensures IsSubsequence(FileEntries(file, songs), Entries(file, songs))
  {
    if songs != [] {
      var init, song := songs[..|songs| - 1], songs[|songs| - 1];
      FileEntriesInOrder(file, init);
      var r := FileEntries(file, songs);
      assert Entries(file, songs)[..|songs| - 1] == Entries(file, init);
      if NoDifficulties(song) {
        assert r[..|r| - 1] == FileEntries(file, init);
      } else {
        assert r == FileEntries(file, init);
        SubsequenceOfPrefix(r, Entries(file, songs));
      }
    }
  }

  /** The entry every song of a file would give, in song order. */
  function Entries(file: string, songs: seq<Song>): (r: seq<Entry>)
    ensures |r| == |songs| && forall j :: 0 <= j < |songs| ==> r[j] == EntryOf(file, songs[j])
  {
    seq(|songs|, j requires 0 <= j < |songs| => EntryOf(file, songs[j]))
  }

  lemma SubsequenceOfPrefix<T>(r: seq<T>, s: seq<T>)
    requires s != [] && IsSubsequence(r, s[..|s| - 1])
    ensures IsSubsequence(r, s)
  {
  }

  /** Only `.json` files are looked at, and a file that fails to parse is skipped without stopping the run. */
  lemma SkippedFilesAddNothing(files: seq<CatalogueFile>, i: int)
    requires 0 <= i < |files|
    requires !EndsWith(files[i].0, ".json") || files[i].1.None?
    ensures Report(files) == Report(files[..i] + files[i + 1..])
  {
    var before, x, after := files[..i], files[i], files[i + 1..];
    assert files == (before + [x]) + after;
    FlatMapAppend(before + [x], after, FileReport);
    assert (before + [x])[..|before|] == before;
    FlatMapAppend(before, after, FileReport);
  }

  /** An entry is reported exactly when some parsed `.json` file holds a song without difficulty data that gives it. */
  lemma ReportIff(files: seq<CatalogueFile>, e: Entry)
    ensures e in Report(files) <==>
      exists i, j :: 0 <= i < |files| && EndsWith(files[i].0, ".json") && files[i].1.Some?
        && 0 <= j < |files[i].1.value| && NoDifficulties(files[i].1.value[j])
        && e == EntryOf(files[i].0, files[i].1.value[j])
  {
    FlatMapMember(files, FileReport, e);
    if e in Report(files) {
      var i :| 0 <= i < |files| && e in FileReport(files[i]);
      FileEntriesIff(files[i].0, files[i].1.value, e);
    } else {
      forall i | 0 <= i < |files| && EndsWith(files[i].0, ".json") && files[i].1.Some?
        ensures forall j :: 0 <= j < |files[i].1.value| && NoDifficulties(files[i].1.value[j])
                  ==> e != EntryOf(files[i].0, files[i].1.value[j])
      {
        FileEntriesIff(files[i].0, files[i].1.value, e);
      }
    }
  }

  /**
   * The report is the complement of the song searcher's Stepmania filter,
   * except for an empty `{}` (or `[]`) difficulty field: Python counts it as
   * missing, JavaScript as present.
   */
  lemma ComplementOfSearcherFilter(song: Song)
    ensures !HasDifficultyData(song) ==> NoDifficulties(song)
    ensures NoDifficulties(song) && HasDifficultyData(song) ==>
      song.singleDifficulties == Some(map[]) || song.doubleDifficulties == Some(map[]) || song.difficulties == Some([])
  {
  }

  /** A song whose only difficulty field is `{}` is reported here yet kept by the song searcher. */
  lemma EmptyObjectDisagreement(song: Song)
    requires song.singleDifficulties == Some(map[])
    requires song.doubleDifficulties.None? && song.difficulties.None?
    ensures NoDifficulties(song) && HasDifficultyData(song)
  {
  }

  /** The script: the directory entries in listing order, and for each parsed `.json` file its songs in order. */
  method BuildReport(files: seq<CatalogueFile>) returns (output: seq<Entry>)
    ensures output == Report(files)
  {
    output := [];
    for i := 0 to |files|
      invariant output == Report(files[..i])
    {
      assert files[..i + 1][..i] == files[..i];
      var (filename, parsed) := files[i];
      if EndsWith(filename, ".json") {
        if parsed.None? {
          continue;
        }
        var songs := parsed.value;
        ghost var before := output;
        for j := 0 to |songs|
          invariant output == before + FileEntries(filename, songs[..j])
        {
          assert songs[..j + 1][..j] == songs[..j];
          var song := songs[j];
          if NoDifficulties(song) {
            output := output + [EntryOf(filename, song)];
          }
        }
        assert songs[..|songs|] == songs;
      }
    }
    assert files[..|files|] == files;
  }
}
