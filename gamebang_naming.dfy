/**
 * Backup file names (GetSceneBackupName): "<stem>_<yyyy-MM-dd_HH-mm-ss>.unity",
 * where the stem is the scene's file name without directory and extension
 * and the timestamp is the current local time in the invariant culture.
 * The calendar breakdown of the current time is an input.
 */
module GameBangNaming {
  import opened Wrappers
  import opened Strings

  const SCENE_EXTENSION := ".unity"

  /** The calendar fields of a DateTime that the backup name shows. */
  datatype Stamp = Stamp(year: int, month: int, day: int, hour: int, minute: int, second: int)

  predicate ValidStamp(t: Stamp) {
    && 1 <= t.year <= 9999 && 1 <= t.month <= 12 && 1 <= t.day <= 31
    && 0 <= t.hour < 24 && 0 <= t.minute < 60 && 0 <= t.second < 60
  }

  /** A two-digit, zero-padded field ("MM", "dd", "HH", "mm", "ss"). */
  function Pad2(n: nat): (s: string)
    requires n < 100
    ensures |s| == 2 && AllDigits(s) && DigitsValue(s) == n
  {
    var s := [DigitChar(n / 10), DigitChar(n % 10)];
    assert DigitsValue(s[..1]) == n / 10 by { assert s[..1][..0] == []; }
    s
  }

  /** A four-digit, zero-padded year ("yyyy"). */
  function Pad4(n: nat): (s: string)
    requires n < 10000
    ensures |s| == 4 && AllDigits(s) && DigitsValue(s) == n
  {
    var s := [DigitChar(n / 1000), DigitChar(n / 100 % 10), DigitChar(n / 10 % 10), DigitChar(n % 10)];
    assert DigitsValue(s[..1]) == n / 1000 by { assert s[..1][..0] == []; }
    assert DigitsValue(s[..2]) == n / 100 by { assert s[..2][..1] == s[..1]; }
    assert DigitsValue(s[..3]) == n / 10 by { assert s[..3][..2] == s[..2]; }
    assert s[..4] == s && s[..4][..3] == s[..3];
    s
  }

  /** DateTime.ToString("yyyy-MM-dd_HH-mm-ss", CultureInfo.InvariantCulture). */
  function FormatStamp(t: Stamp): (s: string)
    requires ValidStamp(t)
    ensures |s| == 19
  {
    Pad4(t.year) + "-" + Pad2(t.month) + "-" + Pad2(t.day) + "_"
      + Pad2(t.hour) + "-" + Pad2(t.minute) + "-" + Pad2(t.second)
  }

  /** Reads a timestamp written by FormatStamp. */
  function ParseStamp(s: string): Option<Stamp> {
    if |s| == 19 && s[4] == '-' && s[7] == '-' && s[10] == '_' && s[13] == '-' && s[16] == '-'
       && AllDigits(s[0..4]) && AllDigits(s[5..7]) && AllDigits(s[8..10])
       && AllDigits(s[11..13]) && AllDigits(s[14..16]) && AllDigits(s[17..19])
    then Some(Stamp(DigitsValue(s[0..4]), DigitsValue(s[5..7]), DigitsValue(s[8..10]),
                    DigitsValue(s[11..13]), DigitsValue(s[14..16]), DigitsValue(s[17..19])))
    else None
  }

  lemma StampRoundTrip(t: Stamp)
    requires ValidStamp(t)
    ensures ParseStamp(FormatStamp(t)) == Some(t)
  {
    var s := FormatStamp(t);
    assert s[0..4] == Pad4(t.year);
    assert s[5..7] == Pad2(t.month);
    assert s[8..10] == Pad2(t.day);
    assert s[11..13] == Pad2(t.hour);
    assert s[14..16] == Pad2(t.minute);
    assert s[17..19] == Pad2(t.second);
  }

  /** Path.GetFileName with '/' as the separator: the text after the last '/'. */
  function FileName(path: string): (r: string)
    ensures '/' !in r
  {
    path[LastIndexOf(path, '/') + 1..]
  }

  /** Path.GetFileNameWithoutExtension: the file name up to its last '.'. */
  function FileNameWithoutExtension(path: string): (r: string)
    ensures '/' !in r
  {
    var name := FileName(path);
    var dot := LastIndexOf(name, '.');
    if dot == -1 then name else name[..dot]
  }

  /** GetSceneBackupName(scenePath) at the time t. */
  function SceneBackupName(scenePath: string, t: Stamp): (r: string)
    requires ValidStamp(t)
    ensures EndsWith(r, SCENE_EXTENSION)
    ensures StartsWith(r, FileNameWithoutExtension(scenePath) + "_")
  {
    var r := FileNameWithoutExtension(scenePath) + "_" + FormatStamp(t) + SCENE_EXTENSION;
    EndsWithConcat(FileNameWithoutExtension(scenePath) + "_" + FormatStamp(t), SCENE_EXTENSION);
    assert r[..|FileNameWithoutExtension(scenePath) + "_"|] == FileNameWithoutExtension(scenePath) + "_";
    r
  }

  /** Splits a backup name into the stem and the time it records. */
  function ParseBackupName(name: string): Option<(string, Stamp)> {
    var n := |name|;
    if n >= 26 && EndsWith(name, SCENE_EXTENSION) && name[n - 26] == '_' then
      var t :- ParseStamp(name[n - 25..n - 6]);
      Some((name[..n - 26], t))
    else None
  }

  /** A backup name records the scene's stem and the time of the backup, and both can be read back. */
  lemma {:induction false} BackupNameRoundTrip(scenePath: string, t: Stamp)
    requires ValidStamp(t)
    ensures ParseBackupName(SceneBackupName(scenePath, t)) == Some((FileNameWithoutExtension(scenePath), t))
  {
    var stem := FileNameWithoutExtension(scenePath);
    var name := SceneBackupName(scenePath, t);
    var n := |name|;
    assert n == |stem| + 26;
    assert name[n - 26] == '_';
    assert name[n - 25..n - 6] == FormatStamp(t);
    assert name[..n - 26] == stem;
    StampRoundTrip(t);
  }

  /**
   * Two backups get the same name only for the same stem in the same
   * second: a second backup of a scene within one second replaces the first.
   */
  lemma BackupNamesCollideOnlyWithinOneSecond(path1: string, t1: Stamp, path2: string, t2: Stamp)
    requires ValidStamp(t1) && ValidStamp(t2)
    requires SceneBackupName(path1, t1) == SceneBackupName(path2, t2)
    ensures t1 == t2 && FileNameWithoutExtension(path1) == FileNameWithoutExtension(path2)
  {
    BackupNameRoundTrip(path1, t1);
    BackupNameRoundTrip(path2, t2);
  }

  /**
   * The scene "Assets/Level1.scene" backed up at 2024-01-02 03:04:05: the
   * stem is kept, the time is zero-padded and the extension becomes .unity.
   */
  lemma BackupNameExample(path: string, t: Stamp)
    requires path == "Assets/Level1.scene" && t == Stamp(2024, 1, 2, 3, 4, 5)
    ensures SceneBackupName(path, t) == "Level1_2024-01-02_03-04-05.unity"
  {
    ExampleStem(path);
    ExampleStamp(t);
    ExampleAssembled(path, t, "Level1", "2024-01-02_03-04-05");
  }

  lemma ExampleAssembled(path: string, t: Stamp, stem: string, time: string)
    requires ValidStamp(t) && FileNameWithoutExtension(path) == stem && FormatStamp(t) == time
    requires stem == "Level1" && time == "2024-01-02_03-04-05"
    ensures SceneBackupName(path, t) == "Level1_2024-01-02_03-04-05.unity"
  {
    assert SceneBackupName(path, t) == stem + "_" + time + SCENE_EXTENSION;
  }

  lemma ExampleStem(path: string)
    requires path == "Assets/Level1.scene"
    ensures FileNameWithoutExtension(path) == "Level1"
  {
    assert FileName(path) == "Level1.scene" by {
      assert path[6] == '/' && forall j :: 6 < j < |path| ==> path[j] != '/';
    }
    var name := FileName(path);
    assert LastIndexOf(name, '.') == 6 by {
      assert name[6] == '.' && forall j :: 6 < j < |name| ==> name[j] != '.';
    }
  }

  lemma ExampleStamp(t: Stamp)
    requires t == Stamp(2024, 1, 2, 3, 4, 5)
    ensures FormatStamp(t) == "2024-01-02_03-04-05"
  {
    assert Pad4(2024) == "2024";
    assert Pad2(1) == "01" && Pad2(2) == "02" && Pad2(3) == "03" && Pad2(4) == "04" && Pad2(5) == "05";
  }
}
