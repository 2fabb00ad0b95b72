/**
 * The YARG catalogue generator (data/YARG/generate_yarg_json.py): the
 * `song.ini` line parser, the audio-file test and the scan that turns song
 * folders into catalogue records.
 *
 * The directory walk is given as a list of folders, each with the names it
 * lists and the state of its `song.ini`; file I/O is not modelled.
 */
module YargSongs {
  import opened Wrappers
  import opened Text
  import opened Lists

  // ------------------------------------------------------------ lines

  /** The first position of `c` in `s`, or `|s|` when it does not occur. */
  function FirstIndexOf(s: string, c: char): (k: nat)
    ensures k <= |s| && (k < |s| ==> s[k] == c)
    ensures forall j :: 0 <= j < k ==> s[j] != c
  {
    if s == [] || s[0] == c then 0 else 1 + FirstIndexOf(s[1..], c)
  }

  /** Python's `s.split(sep)` for a one-character separator. */
  function SplitOn(s: string, sep: char): (parts: seq<string>)
    ensures |parts| > 0
    ensures forall i :: 0 <= i < |parts| ==> sep !in parts[i]
    decreases |s|
  {
    var k := FirstIndexOf(s, sep);
    if k == |s| then [s] else [s[..k]] + SplitOn(s[k + 1..], sep)
  }

  /** Splitting and joining back with the same separator gives the original text. */
  lemma {:induction false} JoinSplitOn(s: string, sep: char)
    ensures Join(SplitOn(s, sep), [sep]) == s
    decreases |s|
  {
    var k := FirstIndexOf(s, sep);
    if k < |s| {
      var rest := s[k + 1..];
      JoinSplitOn(rest, sep);
      var parts := SplitOn(s, sep);
      assert parts == [s[..k]] + SplitOn(rest, sep);
      assert parts[1..] == SplitOn(rest, sep);
      assert s == s[..k] + [sep] + rest;
    }
  }

  // ------------------------------------------------------------ values

  /** Python's `int(s)` on ASCII decimal text: an optional sign, then digits with single underscores between them. */
  predicate IsIntBody(s: string) {
    && |s| > 0
    && DigitsOrUnderscores(s)
    && forall i :: 0 <= i < |s| && s[i] == '_' ==> 0 < i < |s| - 1 && IsDigit(s[i - 1]) && IsDigit(s[i + 1])
  }

  predicate DigitsOrUnderscores(s: string) {
    forall i :: 0 <= i < |s| ==> IsDigit(s[i]) || s[i] == '_'
  }

  /** The digits of an integer literal, without its underscores. */
  function DropUnderscores(s: string): (r: string)
    requires DigitsOrUnderscores(s)
    ensures AllDigits(r)
    ensures AllDigits(s) ==> r == s
  {
    if s == [] then []
    else
      var rest := DropUnderscores(s[1..]);
      if s[0] == '_' then rest else [s[0]] + rest
  }

  /** `int(value)`: `None` where Python raises `ValueError`. */
  function ParseInt(v: string): Option<int> {
    if |v| > 0 && (v[0] == '+' || v[0] == '-') then
      var body := v[1..];
      if IsIntBody(body) then
        var n: int := DigitsValue(DropUnderscores(body));
        var value := if v[0] == '-' then -n else n;
        Some(value)
      else None
    else if IsIntBody(v) then Some(DigitsValue(DropUnderscores(v)))
    else None
  }

  /** Python reads back what it prints: `int(str(n)) == n`. */
  lemma ParseIntOfIntToString(n: int)
    ensures ParseInt(IntToString(n)) == Some(n)
  {
    if n < 0 {
      var digits := NatToString(-n);
      var v := "-" + digits;
      assert v[1..] == digits;
      ParseIntOfDigits(-n);
      assert IntToString(n) == v;
    } else {
      ParseIntOfDigits(n);
    }
  }

  /** The decimal spelling of a natural number is read back as that number, with or without a minus sign. */
  lemma ParseIntOfDigits(m: nat)
    ensures ParseInt(NatToString(m)) == Some(m)
    ensures ParseInt("-" + NatToString(m)) == Some(-(m as int))
  {
    var digits := NatToString(m);
    assert IsIntBody(digits);
    assert !(digits[0] == '+' || digits[0] == '-');
    DigitsValueOfNatToString(m);
    var v := "-" + digits;
    assert v[0] == '-' && v[1..] == digits;
  }

  /** A `diff_*` value: the integer, or `-1` where `int` fails. */
  function DiffValue(v: string): int {
    if v == "-1" then -1
    else match ParseInt(v)
      case Some(n) => n
      case None => -1
  }

  /** The special case for `'-1'` changes nothing: the value is the parsed integer, else `-1`. */
  lemma DiffValueIsParsedOrMinusOne(v: string)
    ensures DiffValue(v) == ParseInt(v).GetOr(-1)
  {
    if v == "-1" {
      assert v[1..] == "1";
      assert DropUnderscores("1") == "1";
      assert DigitsValue("1") == 1 by {
        assert "1"[..0] == "";
      }
    }
  }

  /** `value.lower() in ['true', '1', 'yes']` */
  predicate IsTrueWord(v: string) {
    var w := Lower(v);
    w == "true" || w == "1" || w == "yes"
  }

  // ------------------------------------------------------------ parse_ini_file

  /** The `song_data` dictionary. */
  datatype IniData = IniData(
    name: Option<string>,
    artist: Option<string>,
    album: Option<string>,
    proDrums: bool,
    diffGuitar: int,
    diffBass: int,
    diffDrums: int,
    diffVocals: int,
    diffVocalsHarm: int)

  function Defaults(): IniData {
    IniData(None, None, None, false, -1, -1, -1, -1, -1)
  }

  /** The keys `parse_ini_file` stores. */
  datatype IniKey = Name | Artist | Album | ProDrums | DiffGuitar | DiffBass | DiffDrums | DiffVocals | DiffVocalsHarm

  /** The key a line's (stripped, lower-cased) key text names, if it is one of the stored ones. */
  function KeyOf(key: string): Option<IniKey> {
    if key == "name" then Some(Name)
    else if key == "artist" then Some(Artist)
    else if key == "album" then Some(Album)
    else if key == "pro_drums" then Some(ProDrums)
    else if key == "diff_guitar" then Some(DiffGuitar)
    else if key == "diff_bass" then Some(DiffBass)
    else if key == "diff_drums" then Some(DiffDrums)
    else if key == "diff_vocals" then Some(DiffVocals)
    else if key == "diff_vocals_harm" then Some(DiffVocalsHarm)
    else None
  }

  /** A stripped line with an `=`: the key, stripped and lower-cased, and the value, stripped. */
  function LineEntry(line: string): Option<(string, string)> {
    var l := PyStrip(line);
    var k := FirstIndexOf(l, '=');
    if k == |l| then None else Some((Lower(PyStrip(l[..k])), PyStrip(l[k + 1..])))
  }

  /** The stored key a line names and its value, or `None` for a line `parse_ini_file` ignores. */
  function LineKey(line: string): Option<(IniKey, string)> {
    match LineEntry(line)
    case None => None
    case Some((k, v)) =>
      match KeyOf(k)
      case None => None
      case Some(key) => Some((key, v))
  }

  /** The effect of one line on `song_data`: a stored key overwrites its field, anything else changes nothing. */
  function ApplyLine(d: IniData, line: string): IniData {
    match LineKey(line)
    case None => d
    case Some((key, value)) => Store(d, key, value)
  }

  function Store(d: IniData, key: IniKey, value: string): IniData {
    match key
    case Name => d.(name := Some(value))
    case Artist => d.(artist := Some(value))
    case Album => d.(album := Some(value))
    case ProDrums => d.(proDrums := IsTrueWord(value))
    case DiffGuitar => d.(diffGuitar := DiffValue(value))
    case DiffBass => d.(diffBass := DiffValue(value))
    case DiffDrums => d.(diffDrums := DiffValue(value))
    case DiffVocals => d.(diffVocals := DiffValue(value))
    case DiffVocalsHarm => d.(diffVocalsHarm := DiffValue(value))
  }

  /** The lines applied in order. */
  function ApplyLines(d: IniData, lines: seq<string>): IniData {
    if lines == [] then d else ApplyLine(ApplyLines(d, lines[..|lines| - 1]), lines[|lines| - 1])
  }

  /** What `parse_ini_file` returns for a file it could read. */
  function ParseIni(content: string): IniData {
    ApplyLines(Defaults(), SplitOn(content, '\n'))
  }

  /** The value on the last line whose key is `key`, if any. */
  function LastValue(lines: seq<string>, key: IniKey): Option<string> {
    if lines == [] then None
    else match LineKey(lines[|lines| - 1])
      case Some((k, v)) => if k == key then Some(v) else LastValue(lines[..|lines| - 1], key)
      case None => LastValue(lines[..|lines| - 1], key)
  }

  /** The field's value as `parse_ini_file` computes it from the last value stored under `key`. */
  function FieldOf(lines: seq<string>, key: IniKey): int {
    match LastValue(lines, key)
    case Some(v) => DiffValue(v)
    case None => -1
  }

  /** `Store` changes exactly the field its key names. */
  lemma StoreField(d: IniData, key: IniKey, value: string)
    ensures var e := Store(d, key, value);
            && e.name == (if key == Name then Some(value) else d.name)
            && e.artist == (if key == Artist then Some(value) else d.artist)
            && e.album == (if key == Album then Some(value) else d.album)
            && e.proDrums == (if key == ProDrums then IsTrueWord(value) else d.proDrums)
            && e.diffGuitar == (if key == DiffGuitar then DiffValue(value) else d.diffGuitar)
            && e.diffBass == (if key == DiffBass then DiffValue(value) else d.diffBass)
            && e.diffDrums == (if key == DiffDrums then DiffValue(value) else d.diffDrums)
            && e.diffVocals == (if key == DiffVocals then DiffValue(value) else d.diffVocals)
            && e.diffVocalsHarm == (if key == DiffVocalsHarm then DiffValue(value) else d.diffVocalsHarm)
  {
  }

  /**
   * Each field is decided by the last line carrying its key and keeps its
   * default when there is none: later lines overwrite earlier ones.
   */
  lemma {:induction false} ParsedFields(lines: seq<string>)
    ensures var d := ApplyLines(Defaults(), lines);
            && d.name == LastValue(lines, Name)
            && d.artist == LastValue(lines, Artist)
            && d.album == LastValue(lines, Album)
            && d.proDrums == (LastValue(lines, ProDrums).Some? && IsTrueWord(LastValue(lines, ProDrums).value))
            && d.diffGuitar == FieldOf(lines, DiffGuitar)
            && d.diffBass == FieldOf(lines, DiffBass)
            && d.diffDrums == FieldOf(lines, DiffDrums)
            && d.diffVocals == FieldOf(lines, DiffVocals)
            && d.diffVocalsHarm == FieldOf(lines, DiffVocalsHarm)
  {
    if lines != [] {
      var init := lines[..|lines| - 1];
      ParsedFields(init);
      match LineKey(lines[|lines| - 1])
      case None =>
      case Some((key, value)) => StoreField(ApplyLines(Defaults(), init), key, value);
    }
  }

  /** Text in which no line names a stored key parses to the defaults. */
  lemma NoKeyLinesGiveDefaults(content: string)
    requires forall i :: 0 <= i < |SplitOn(content, '\n')| ==> LineKey(SplitOn(content, '\n')[i]).None?
    ensures ParseIni(content) == Defaults()
  {
    var lines := SplitOn(content, '\n');
    NoEntryNoValue(lines);
    ParsedFields(lines);
  }

  lemma {:induction false} NoEntryNoValue(lines: seq<string>)
    requires forall i :: 0 <= i < |lines| ==> LineKey(lines[i]).None?
    ensures forall key :: LastValue(lines, key).None?
  {
    if lines != [] {
      NoEntryNoValue(lines[..|lines| - 1]);
    }
  }

  /** A line needs an `=`; the key is what precedes the first one and is lower-cased. */
  lemma LineEntryExample()
    ensures LineEntry("A=b=c") == Some(("a", "b=c"))
    ensures LineEntry("abc") == None
  {
    assert PyStrip("A=b=c") == "A=b=c";
    assert FirstIndexOf("A=b=c", '=') == 1;
    assert "A=b=c"[..1] == "A" && "A=b=c"[2..] == "b=c";
    assert PyStrip("A") == "A" && PyStrip("b=c") == "b=c";
    assert Lower("A") == "a";
    assert PyStrip("abc") == "abc";
  }

  /** The file's contents as far as the parser is concerned: `None` when it cannot be opened or read. */
  method ParseIniFile(file: Option<string>) returns (r: Option<IniData>)
    ensures r == if file.None? then None else Some(ParseIni(file.value))
  {
    if file.None? {
      return None;
    }
    var lines := SplitOn(file.value, '\n');
    var songData := Defaults();
    for i := 0 to |lines|
      invariant songData == ApplyLines(Defaults(), lines[..i])
    {
      assert lines[..i + 1][..i] == lines[..i];
      match LineEntry(lines[i])
      case None =>
      case Some((key, value)) =>
        match KeyOf(key)
        case None =>
        case Some(Name) => songData := songData.(name := Some(value));
        case Some(Artist) => songData := songData.(artist := Some(value));
        case Some(Album) => songData := songData.(album := Some(value));
        case Some(ProDrums) => songData := songData.(proDrums := IsTrueWord(value));
        case Some(DiffGuitar) => songData := songData.(diffGuitar := DiffValue(value));
        case Some(DiffBass) => songData := songData.(diffBass := DiffValue(value));
        case Some(DiffDrums) => songData := songData.(diffDrums := DiffValue(value));
        case Some(DiffVocals) => songData := songData.(diffVocals := DiffValue(value));
        case Some(DiffVocalsHarm) => songData := songData.(diffVocalsHarm := DiffValue(value));
    }
    assert lines[..|lines|] == lines;
    return Some(songData);
  }

  // ------------------------------------------------------------ has_audio_file

  function AudioExtensions(): seq<string> {
    [".mp3", ".ogg", ".wav", ".flac", ".m4a", ".aac", ".wma"]
  }

  /** The name, lower-cased, ends with one of the audio extensions. */
  predicate IsAudioName(name: string) {
    exists j :: 0 <= j < |AudioExtensions()| && EndsWith(Lower(name), AudioExtensions()[j])
  }

  /** `has_audio_file`: true at the first entry with an audio extension. */
  method HasAudioFile(names: seq<string>) returns (found: bool)
    ensures found <==> exists i :: 0 <= i < |names| && IsAudioName(names[i])
  {
    for i := 0 to |names|
      invariant forall k :: 0 <= k < i ==> !IsAudioName(names[k])
    {
      var lowered := Lower(names[i]);
      var j := 0;
      while j < |AudioExtensions()|
        invariant 0 <= j <= |AudioExtensions()|
        invariant forall m :: 0 <= m < j ==> !EndsWith(lowered, AudioExtensions()[m])
      {
        if EndsWith(lowered, AudioExtensions()[j]) {
          return true;
        }
        j := j + 1;
      }
    }
    return false;
  }

  /** The extension test ignores letter case. */
  lemma AudioNameIgnoresCase(name: string)
    ensures IsAudioName(name) <==> IsAudioName(Lower(name))
  {
    LowerIdempotent(name);
  }

  // ------------------------------------------------------------ scan_yarg_songs

  /** One record of `yarg_songs.json`. */
  datatype YargSong = YargSong(
    title: string,
    artist: Option<string>,
    album: Option<string>,
    proDrums: bool,
    guitar: int,
    bass: int,
    drums: int,
    vocals: int,
    vocalsHarmony: int)

  /**
   * The `song.ini` of a folder: absent, present but unreadable, or its text
   * as text mode reads it, after universal-newline translation.
   */
  datatype IniFile = NoIni | Unreadable | IniText(text: string)

  /** One directory of the walk: the names `os.listdir` gives and its `song.ini`. */
  datatype SongFolder = SongFolder(names: seq<string>, ini: IniFile)

  /** `x if x else None` for a string field. */
  function NonEmpty(field: Option<string>): (r: Option<string>)
    ensures r.Some? <==> field.Some? && field.value != ""
    ensures r.Some? ==> r == field
  {
    if field.Some? && field.value != "" then field else None
  }

  predicate AnyRated(d: IniData) {
    d.diffGuitar != -1 || d.diffBass != -1 || d.diffDrums != -1 || d.diffVocals != -1 || d.diffVocalsHarm != -1
  }

  /** The selection test and `formatted_song` for a parse result. */
  function Emit(parsed: Option<IniData>): Option<YargSong> {
    match parsed
    case None => None
    case Some(d) =>
      if d.name.Some? && d.name.value != "" && AnyRated(d) then
        Some(YargSong(d.name.value, NonEmpty(d.artist), NonEmpty(d.album), d.proDrums,
                      d.diffGuitar, d.diffBass, d.diffDrums, d.diffVocals, d.diffVocalsHarm))
      else None
  }

  function IniContents(ini: IniFile): Option<string>
    requires !ini.NoIni?
  {
    if ini.IniText? then Some(ini.text) else None
  }

  ghost predicate HasAudio(names: seq<string>) {
    exists i :: 0 <= i < |names| && IsAudioName(names[i])
  }

  /** What one folder contributes to the catalogue. */
  ghost function FolderSong(f: SongFolder): Option<YargSong> {
    if f.ini.NoIni? || !HasAudio(f.names) then None
    else Emit(if f.ini.IniText? then Some(ParseIni(f.ini.text)) else None)
  }

  /** What each folder of the walk contributes, in walk order. */
  ghost function FolderSongs(folders: seq<SongFolder>): (r: seq<Option<YargSong>>)
    ensures |r| == |folders|
  {
    if folders == [] then [] else FolderSongs(folders[..|folders| - 1]) + [FolderSong(folders[|folders| - 1])]
  }

  /** The `i`-th entry is what the `i`-th folder contributes. */
  lemma {:induction false} FolderSongsAt(folders: seq<SongFolder>, i: int)
    requires 0 <= i < |folders|
    ensures FolderSongs(folders)[i] == FolderSong(folders[i])
  {
    if i < |folders| - 1 {
      var init := folders[..|folders| - 1];
      FolderSongsAt(init, i);
      assert init[i] == folders[i];
    }
  }

  /** The records of the walk, in walk order. */
  ghost function ScanSongs(rootExists: bool, folders: seq<SongFolder>): seq<YargSong> {
    if !rootExists then [] else Somes(FolderSongs(folders))
  }

  /**
   * A folder yields a record exactly when it has a readable `song.ini`, an
   * audio file, a non-empty name and some difficulty other than `-1`; the
   * record renames the fields and turns an empty artist or album into `None`.
   */
  lemma FolderSongIff(f: SongFolder)
    ensures FolderSong(f).Some? <==>
      && f.ini.IniText? && HasAudio(f.names)
      && var d := ParseIni(f.ini.text);
         d.name.Some? && d.name.value != "" && AnyRated(d)
    ensures FolderSong(f).Some? ==>
      var d := ParseIni(f.ini.text);
      var song := FolderSong(f).value;
      && song.title == d.name.value
      && song.artist == (if d.artist == Some("") then None else d.artist)
      && song.album == (if d.album == Some("") then None else d.album)
      && song.proDrums == d.proDrums
      && [song.guitar, song.bass, song.drums, song.vocals, song.vocalsHarmony]
         == [d.diffGuitar, d.diffBass, d.diffDrums, d.diffVocals, d.diffVocalsHarm]
  {
  }

  /** A record is in the catalogue exactly when some folder yields it. */
  lemma ScanSongsIff(folders: seq<SongFolder>, song: YargSong)
    ensures song in ScanSongs(true, folders) <==> exists i :: 0 <= i < |folders| && FolderSong(folders[i]) == Some(song)
  {
    var fs := FolderSongs(folders);
    SomesMember(fs, song);
    if song in ScanSongs(true, folders) {
      var i :| 0 <= i < |fs| && fs[i] == Some(song);
      FolderSongsAt(folders, i);
    }
    if exists i :: 0 <= i < |folders| && FolderSong(folders[i]) == Some(song) {
      var i :| 0 <= i < |folders| && FolderSong(folders[i]) == Some(song);
      FolderSongsAt(folders, i);
      assert fs[i] == Some(song);
    }
  }

  /** Without the root folder there is nothing. */
  lemma MissingRootGivesNothing(folders: seq<SongFolder>)
    ensures ScanSongs(false, folders) == []
  {
  }

  /** The loop body of `scan_yarg_songs` for one folder: the record it appends, if any. */
  method ScanFolder(folder: SongFolder) returns (song: Option<YargSong>)
    ensures song == FolderSong(folder)
  {
    song := None;
    if !folder.ini.NoIni? {
      var audio := HasAudioFile(folder.names);
      if audio {
        var songData := ParseIniFile(IniContents(folder.ini));
        song := Emit(songData);
      }
    }
  }

  /** `scan_yarg_songs`: checks each folder of the walk and appends its record. */
  method ScanYargSongs(rootExists: bool, folders: seq<SongFolder>) returns (songs: seq<YargSong>)
    ensures songs == ScanSongs(rootExists, folders)
  {
    songs := [];
    if !rootExists {
      return;
    }
    for i := 0 to |folders|
      invariant songs == Somes(FolderSongs(folders[..i]))
    {
      assert folders[..i + 1][..i] == folders[..i];
      SomesSnoc(FolderSongs(folders[..i]), FolderSong(folders[i]));
      var song := ScanFolder(folders[i]);
      if song.Some? {
        songs := songs + [song.value];
      }
    }
    assert folders[..|folders|] == folders;
  }
}
