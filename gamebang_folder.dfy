/**
 * The "Choose folder" branch of the GameBang preferences panel: the folder
 * picked in the dialog is turned into a path relative to the project
 * folder, ending in "/AutoSaves".  The project is identified by
 * "/" + the next-to-last segment of Application.dataPath ("<root>/Assets").
 */
module GameBangFolder {
  import opened Wrappers
  import opened Strings

  const AUTOSAVES_SUFFIX := "/AutoSaves"

  /** What the branch does with the dialog's answer. */
  datatype FolderChoice =
    | Cancelled               // the dialog returned "": the folder is kept
    | NoProjectName           // dataPath has fewer than two segments: p[p.Length - 2] throws
    | OutsideProject          // the "Wrong folder path" dialog: the folder is kept
    | Relocated(path: string) // the new folder

  /** "/" + the next-to-last '/'-separated segment of dataPath. */
  function ProjectName(dataPath: string): Option<string> {
    var p := Split(dataPath, '/');
    if |p| < 2 then None else Some("/" + p[|p| - 2])
  }

  /** Appends "/AutoSaves" unless the path already ends with it. */
  function WithAutoSaves(f: string): (r: string)
    ensures EndsWith(r, AUTOSAVES_SUFFIX)
    ensures EndsWith(f, AUTOSAVES_SUFFIX) ==> r == f
    ensures !EndsWith(f, AUTOSAVES_SUFFIX) ==> r == f + AUTOSAVES_SUFFIX
  {
    if EndsWith(f, AUTOSAVES_SUFFIX) then f
    else
      EndsWithConcat(f, AUTOSAVES_SUFFIX);
      f + AUTOSAVES_SUFFIX
  }

  /**
   * "." + the text after the FIRST occurrence of the project name in the
   * selected path, or None when the name does not occur in it.
   */
  function RelativeTo(selected: string, name: string): (r: Option<string>)
    ensures r.None? <==> forall j :: 0 <= j ==> !OccursAt(selected, name, j)
    ensures r.Some? ==> forall k :: FirstAt(selected, name, k) ==> r.value == "." + selected[k + |name|..]
  {
    var index := IndexOf(selected, name);
    if index < 0 then None
    else
      assert FirstAt(selected, name, index);
      forall k | FirstAt(selected, name, k) ensures k == index {
        FirstAtUnique(selected, name, k, index);
      }
      Some("." + selected[index + |name|..])
  }

  /** The branch as written. */
  function ChooseFolder(selected: string, dataPath: string): (c: FolderChoice)
    ensures selected == "" <==> c == Cancelled
    ensures c == NoProjectName <==> selected != "" && ProjectName(dataPath).None?
    ensures c == OutsideProject <==>
      selected != "" && ProjectName(dataPath).Some? && RelativeTo(selected, ProjectName(dataPath).value).None?
    ensures c.Relocated? ==>
      RelativeTo(selected, ProjectName(dataPath).value).Some?
      && c.path == WithAutoSaves(RelativeTo(selected, ProjectName(dataPath).value).value)
      && StartsWith(c.path, ".") && EndsWith(c.path, AUTOSAVES_SUFFIX)
  {
    if selected == "" then Cancelled
    else match ProjectName(dataPath)
      case None => NoProjectName
      case Some(name) =>
        match RelativeTo(selected, name)
        case None => OutsideProject
        case Some(f) =>
          var path := WithAutoSaves(f);
          assert StartsWith(path, ".") by {
            assert path[..1] == f[..1];
          }
          Relocated(path)
  }

  /** The root of the project: Application.dataPath without its final "/Assets". */
  function ProjectRoot(dataPath: string): Option<string> {
    if EndsWith(dataPath, "/Assets") then Some(dataPath[..|dataPath| - 7]) else None
  }

  /**
   * The branch as its comments describe it ("a path relative to the
   * project folder"): the selection must be the project root or lie below it.
   */
  function ChooseFolderFixed(selected: string, dataPath: string): (c: FolderChoice)
    ensures selected == "" <==> c == Cancelled
    ensures c.Relocated? ==> EndsWith(c.path, AUTOSAVES_SUFFIX)
  {
    if selected == "" then Cancelled
    else match ProjectRoot(dataPath)
      case None => NoProjectName
      case Some(root) =>
        if selected == root || StartsWith(selected, root + "/") then
          Relocated(WithAutoSaves("." + selected[|root|..]))
        else OutsideProject
  }

  /** The corrected branch yields "." + the selection's path below the project root. */
  lemma FixedIsRelativeToRoot(root: string, rel: string)
    requires rel == "" || rel[0] == '/'
    requires root + rel != ""
    ensures ChooseFolderFixed(root + rel, root + "/Assets") == Relocated(WithAutoSaves("." + rel))
  {
    var dataPath := root + "/Assets";
    assert dataPath[|dataPath| - 7..] == "/Assets";
    assert dataPath[..|dataPath| - 7] == root;
    var selected := root + rel;
    assert selected[|root|..] == rel;
    if rel != "" {
      assert selected[..|root + "/"|] == root + "/";
    }
  }

  /** The corrected branch refuses a selection that is not at or below the project root. */
  lemma FixedRejectsOutside(selected: string, root: string)
    requires selected != "" && selected != root && !StartsWith(selected, root + "/")
    ensures ChooseFolderFixed(selected, root + "/Assets") == OutsideProject
  {
    var dataPath := root + "/Assets";
    assert dataPath[|dataPath| - 7..] == "/Assets";
    assert dataPath[..|dataPath| - 7] == root;
  }

  /** Split at the first separator, found at k. */
  lemma SplitAt(s: string, separator: char, k: int)
    requires 0 <= k < |s| && s[k] == separator && separator !in s[..k]
    ensures Split(s, separator) == [s[..k]] + Split(s[k + 1..], separator)
  {
    IndexOfCharAt(s, separator, k);
  }

  /** A piece without the separator splits into itself. */
  lemma SplitSingle(s: string, separator: char)
    requires separator !in s
    ensures Split(s, separator) == [s]
  {
    IndexOfCharAbsent(s, separator);
  }

  /** Where the first separator of a text is. */
  lemma FirstSeparator(a: string, separator: char) returns (k: int)
    requires separator in a
    ensures 0 <= k < |a| && a[k] == separator && separator !in a[..k]
  {
    k := IndexOf(a, [separator]);
    if k == -1 {
      var i :| 0 <= i < |a| && a[i] == separator;
      OccursAtChar(a, separator, i);
      assert false;
    }
    OccursAtChar(a, separator, k);
    forall j | 0 <= j < k ensures a[..k][j] != separator {
      OccursAtChar(a, separator, j);
    }
  }

  /** When a holds no separator, the joined text splits into a, then the pieces of b. */
  lemma SplitFirstPiece(a: string, b: string, separator: char)
    requires separator !in a
    ensures Split(a + [separator] + b, separator) == [a] + Split(b, separator)
  {
    var s := a + [separator] + b;
    assert s[..|a|] == a;
    SplitAt(s, separator, |a|);
    assert s[|a| + 1..] == b;
  }

  /** When the first separator of a is at k, both a and the joined text split there. */
  lemma SplitShift(a: string, b: string, separator: char, k: int)
    requires 0 <= k < |a| && a[k] == separator && separator !in a[..k]
    ensures Split(a + [separator] + b, separator) == [a[..k]] + Split(a[k + 1..] + [separator] + b, separator)
    ensures Split(a, separator) == [a[..k]] + Split(a[k + 1..], separator)
  {
    var s := a + [separator] + b;
    assert s[..k] == a[..k];
    SplitAt(s, separator, k);
    SplitAt(a, separator, k);
    assert s[k + 1..] == a[k + 1..] + [separator] + b;
  }

  /** head + (rest + tail) regrouped as (head + rest) + tail. */
  lemma Regroup<T>(whole: seq<T>, part: seq<T>, head: seq<T>, mid: seq<T>, rest: seq<T>, tail: seq<T>)
    requires whole == head + mid && mid == rest + tail && part == head + rest
    ensures whole == part + tail
  {
  }

  /** The inductive step of SplitAround: what holds after the first separator of a holds for a. */
  lemma SplitAroundStep(a: string, b: string, separator: char, k: int)
    requires 0 <= k < |a| && a[k] == separator && separator !in a[..k]
    requires Split(a[k + 1..] + [separator] + b, separator) == Split(a[k + 1..], separator) + Split(b, separator)
    ensures Split(a + [separator] + b, separator) == Split(a, separator) + Split(b, separator)
  {
    SplitShift(a, b, separator, k);
    Regroup(Split(a + [separator] + b, separator), Split(a, separator), [a[..k]],
      Split(a[k + 1..] + [separator] + b, separator), Split(a[k + 1..], separator), Split(b, separator));
  }

  /** Splitting distributes over a separator. */
  lemma {:induction false} SplitAround(a: string, b: string, separator: char)
    ensures Split(a + [separator] + b, separator) == Split(a, separator) + Split(b, separator)
    decreases |a|
  {
    if separator !in a {
      SplitFirstPiece(a, b, separator);
      SplitSingle(a, separator);
    } else {
      var k := FirstSeparator(a, separator);
      SplitAround(a[k + 1..], b, separator);
      SplitAroundStep(a, b, separator, k);
    }
  }

  /** Splitting off a last piece that holds no separator. */
  lemma SplitSnoc(a: string, b: string, separator: char)
    requires separator !in b
    ensures Split(a + [separator] + b, separator) == Split(a, separator) + [b]
  {
    SplitAround(a, b, separator);
    SplitSingle(b, separator);
  }

  /** The segments of "<parent>/<name>/Assets". */
  lemma SplitDataPath(parent: string, name: string)
    requires '/' !in name
    ensures Split(parent + "/" + name + "/Assets", '/') == Split(parent, '/') + [name] + ["Assets"]
  {
    var left := parent + ['/'] + name;
    assert parent + "/" + name + "/Assets" == left + ['/'] + "Assets";
    SplitSnoc(left, "Assets", '/');
    SplitSnoc(parent, name, '/');
  }

  /** For a data path "<parent>/<name>/Assets" the project name is "/<name>". */
  lemma ProjectNameOf(parent: string, name: string)
    requires '/' !in name
    ensures ProjectName(parent + "/" + name + "/Assets") == Some("/" + name)
  {
    SplitDataPath(parent, name);
    var p := Split(parent + "/" + name + "/Assets", '/');
    assert p[|p| - 2] == name;
  }

  /** The as-written branch relocates once the project name has been found. */
  lemma ChooseFolderRelocates(selected: string, dataPath: string, name: string, f: string)
    requires selected != "" && ProjectName(dataPath) == Some(name)
    requires RelativeTo(selected, name) == Some(f)
    ensures ChooseFolder(selected, dataPath) == Relocated(WithAutoSaves(f))
  {
  }

  /** "/Proj" is a prefix of "/Projects", so the selection is cut right after its first five characters. */
  lemma RelativeToOnClash(selected: string, name: string)
    requires selected == "/Projects/Proj/Backups" && name == "/Proj"
    ensures RelativeTo(selected, name) == Some(".ects/Proj/Backups")
  {
    assert selected[0..5] == name;
    assert FirstAt(selected, name, 0);
    assert selected[5..] == "ects/Proj/Backups";
    assert "." + selected[5..] == ".ects/Proj/Backups";
  }

  /** "/AutoSaves" is appended to a path that does not already end with it. */
  lemma SuffixAppended(f: string)
    requires f == ".ects/Proj/Backups"
    ensures WithAutoSaves(f) == ".ects/Proj/Backups/AutoSaves"
  {
    assert f[|f| - 10..][0] == f[8] == 'o';
  }

  /** The as-written branch on the clashing selection. */
  lemma AsWrittenOnAncestorClash(selected: string, dataPath: string)
    requires dataPath == "/Projects/Proj/Assets"
    requires selected == "/Projects/Proj/Backups"
    ensures ChooseFolder(selected, dataPath) == Relocated(".ects/Proj/Backups/AutoSaves")
  {
    var parent, name := "/Projects", "Proj";
    assert parent + "/" == "/Projects/";
    assert parent + "/" + name == "/Projects/Proj";
    assert dataPath == parent + "/" + name + "/Assets";
    ProjectNameOf(parent, name);
    assert "/" + name == "/Proj";
    RelativeToOnClash(selected, "/Proj");
    var f := ".ects/Proj/Backups";
    ChooseFolderRelocates(selected, dataPath, "/Proj", f);
    SuffixAppended(f);
  }

  /** The corrected branch appends "/AutoSaves" to "./Backups". */
  lemma FixedSuffix(f: string)
    requires f == "./Backups"
    ensures WithAutoSaves(f) == "./Backups/AutoSaves"
  {
    assert |f| < |AUTOSAVES_SUFFIX|;
  }

  /** The corrected branch on the same selection. */
  lemma FixedOnAncestorClash(selected: string, dataPath: string)
    requires dataPath == "/Projects/Proj/Assets"
    requires selected == "/Projects/Proj/Backups"
    ensures ChooseFolderFixed(selected, dataPath) == Relocated("./Backups/AutoSaves")
  {
    var root, rel := "/Projects/Proj", "/Backups";
    assert dataPath == root + "/Assets";
    assert selected == root + rel;
    FixedIsRelativeToRoot(root, rel);
    assert "." + rel == "./Backups";
    FixedSuffix("./Backups");
  }

  /**
   * The defect: the project name "/Proj" is found inside "/Projects", an
   * ancestor directory, so a folder inside the project is made relative to
   * the wrong place.  The corrected branch gives "./Backups/AutoSaves".
   */
  lemma ProjectNameInsideAncestor(selected: string, dataPath: string)
    requires dataPath == "/Projects/Proj/Assets"
    requires selected == "/Projects/Proj/Backups"
    ensures ChooseFolder(selected, dataPath) == Relocated(".ects/Proj/Backups/AutoSaves")
    ensures ChooseFolderFixed(selected, dataPath) == Relocated("./Backups/AutoSaves")
    ensures ChooseFolder(selected, dataPath) != ChooseFolderFixed(selected, dataPath)
  {
    AsWrittenOnAncestorClash(selected, dataPath);
    FixedOnAncestorClash(selected, dataPath);
  }
}
