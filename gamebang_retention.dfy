/**
 * The retention rule of DeleteOldBackups: in the backup folder, every
 * "*.unity" file whose age since creation is at least DeleteMinutes is
 * deleted; younger files and files of other kinds stay.
 *
 * The folder is a map from file name to creation time in seconds; ages are
 * compared in whole seconds, so "TotalMinutes >= m" is "age >= 60 * m".
 */
module GameBangRetention {
  import opened Strings

  /** The contents of the backup folder: file name to creation time. */
  type Folder = map<string, int>

  const SCENE_PATTERN_EXTENSION := ".unity"

  /** Directory.GetFiles(folder, "*.unity") lists this file. */
  predicate IsSceneFile(name: string) {
    EndsWith(name, SCENE_PATTERN_EXTENSION)
  }

  /** At least maxAgeMinutes have passed since created. */
  predicate Expired(created: int, now: int, maxAgeMinutes: int) {
    now - created >= 60 * maxAgeMinutes
  }

  /** The files DeleteOldBackups deletes. */
  function Doomed(files: Folder, now: int, maxAgeMinutes: int): set<string> {
    set f | f in files && IsSceneFile(f) && Expired(files[f], now, maxAgeMinutes)
  }

  /** The folder after deletion. */
  function Prune(files: Folder, now: int, maxAgeMinutes: int): Folder {
    files - Doomed(files, now, maxAgeMinutes)
  }

  /**
   * What survives is exactly the files that are younger than the limit or
   * are not scenes, each with its creation time.
   */
  lemma PruneKeepsExactly(files: Folder, now: int, maxAgeMinutes: int, f: string)
    ensures f in Prune(files, now, maxAgeMinutes) <==>
      f in files && !(IsSceneFile(f) && Expired(files[f], now, maxAgeMinutes))
    ensures f in Prune(files, now, maxAgeMinutes) ==> Prune(files, now, maxAgeMinutes)[f] == files[f]
  {
  }

  /** The age limit is inclusive: a scene exactly maxAgeMinutes old goes, one a second younger stays. */
  lemma BoundaryIsInclusive(files: Folder, now: int, maxAgeMinutes: int, f: string)
    requires f in files && IsSceneFile(f)
    ensures files[f] == now - 60 * maxAgeMinutes ==> f !in Prune(files, now, maxAgeMinutes)
    ensures files[f] == now - 60 * maxAgeMinutes + 1 ==> f in Prune(files, now, maxAgeMinutes)
  {
  }

  /** Files that are not "*.unity" are never deleted, whatever their age. */
  lemma OtherFilesSurvive(files: Folder, now: int, maxAgeMinutes: int, f: string)
    requires f in files && !IsSceneFile(f)
    ensures f in Prune(files, now, maxAgeMinutes) && Prune(files, now, maxAgeMinutes)[f] == files[f]
  {
  }

  /** Deletion never adds or alters a file. */
  lemma PruneShrinks(files: Folder, now: int, maxAgeMinutes: int)
    ensures Prune(files, now, maxAgeMinutes).Keys <= files.Keys
    ensures forall f :: f in Prune(files, now, maxAgeMinutes) ==> Prune(files, now, maxAgeMinutes)[f] == files[f]
  {
  }

  /** Deleting again at the same moment deletes nothing more. */
  lemma PruneIdempotent(files: Folder, now: int, maxAgeMinutes: int)
    ensures Prune(Prune(files, now, maxAgeMinutes), now, maxAgeMinutes) == Prune(files, now, maxAgeMinutes)
  {
    var once := Prune(files, now, maxAgeMinutes);
    assert Doomed(once, now, maxAgeMinutes) == {};
  }

  /** A later deletion deletes at least what an earlier one would. */
  lemma LaterDeletesMore(files: Folder, now: int, later: int, maxAgeMinutes: int)
    requires now <= later
    ensures Doomed(files, now, maxAgeMinutes) <= Doomed(files, later, maxAgeMinutes)
  {
  }

  /** A longer age limit deletes at most what a shorter one would. */
  lemma LongerLimitDeletesLess(files: Folder, now: int, shorter: int, longer: int)
    requires shorter <= longer
    ensures Doomed(files, now, longer) <= Doomed(files, now, shorter)
  {
  }

  /**
   * Scenes 30, 59 and 61 minutes old with a limit of 60 minutes: only the
   * 61-minute-old one is deleted.
   */
  lemma SixtyMinuteExample(files: Folder, now: int, a: string, b: string, c: string)
    requires IsSceneFile(a) && IsSceneFile(b) && IsSceneFile(c)
    requires files == map[a := now - 30 * 60, b := now - 59 * 60, c := now - 61 * 60]
    requires a != b && b != c && a != c
    ensures Prune(files, now, 60) == map[a := now - 30 * 60, b := now - 59 * 60]
  {
    assert Doomed(files, now, 60) == {c};
  }

  /** With a limit of 0 minutes every scene file goes, even one created at this moment. */
  lemma ZeroLimitDeletesEveryScene(files: Folder, now: int, f: string)
    requires f in files && IsSceneFile(f) && files[f] <= now
    ensures f !in Prune(files, now, 0)
  {
  }
}
