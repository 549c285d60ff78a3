/**
 * The files that the window system hands over when something is dragged
 * onto the window, and the search among them for the first KeePass
 * database (a name ending in ".kdbx").
 */
module DroppedFiles {
  import opened Wrappers

  /** A dropped file: only its path (if the platform gives one) and its name are read. */
  datatype DroppedFile = DroppedFile(path: Option<string>, name: string)

  /** The extension that marks a KeePass 2 database. */
  const KdbxExtension: string := ".kdbx"

  /** The text shown for a file that has neither path nor name. */
  const UnknownInfo: string := "???"

  /** `s.ends_with(".kdbx")`, compared character by character from the end. */
  predicate EndsWithKdbx(s: string) {
    var n := |s| - |KdbxExtension|;
    n >= 0 &&
    s[n] == KdbxExtension[0] && s[n + 1] == KdbxExtension[1] && s[n + 2] == KdbxExtension[2] &&
    s[n + 3] == KdbxExtension[3] && s[n + 4] == KdbxExtension[4]
  }

  /** The character test is the same as "the last five characters are .kdbx". */
  lemma EndsWithKdbxSuffix(s: string)
    ensures EndsWithKdbx(s) <==>
      |KdbxExtension| <= |s| && s[|s| - |KdbxExtension|..] == KdbxExtension
  {
    if |KdbxExtension| <= |s| {
      var tail := s[|s| - |KdbxExtension|..];
      assert tail[0] == s[|s| - 5] && tail[4] == s[|s| - 1];
      if EndsWithKdbx(s) {
        assert tail == KdbxExtension;
      }
    }
  }

  /** The text the scan looks at: the path if present, else the name if not empty, else "???". */
  function Info(f: DroppedFile): string {
    if f.path.Some? then f.path.value
    else if f.name != [] then f.name
    else UnknownInfo
  }

  /** The file is taken for a database: its info text ends with ".kdbx". */
  predicate IsKdbx(f: DroppedFile) {
    EndsWithKdbx(Info(f))
  }

  /** The index of the first file from index `from` on that is taken for a database, if there is one. */
  function FirstKdbxFrom(files: seq<DroppedFile>, from: nat): (k: Option<nat>)
    requires from <= |files|
    ensures k.Some? ==> from <= k.value < |files| && IsKdbx(files[k.value])
    ensures k.Some? ==> forall j :: from <= j < k.value ==> !IsKdbx(files[j])
    ensures k.None? <==> forall j :: from <= j < |files| ==> !IsKdbx(files[j])
    decreases |files| - from
  {
    if from == |files| then None
    else if IsKdbx(files[from]) then Some(from)
    else FirstKdbxFrom(files, from + 1)
  }

  /** The index of the first file taken for a database, if there is one. */
  function FirstKdbx(files: seq<DroppedFile>): (k: Option<nat>)
    ensures k.Some? ==> k.value < |files| && IsKdbx(files[k.value])
    ensures k.Some? ==> forall j :: 0 <= j < k.value ==> !IsKdbx(files[j])
    ensures k.None? <==> forall j :: 0 <= j < |files| ==> !IsKdbx(files[j])
  {
    FirstKdbxFrom(files, 0)
  }

  /**
   * The path the scan of the dropped files ends with: the path of the first
   * file taken for a database, which is None when there is no such file or
   * when that first file was matched by its name alone.
   */
  function DroppedTarget(files: seq<DroppedFile>): Option<string> {
    match FirstKdbx(files)
    case None => None
    case Some(k) => files[k].path
  }

  /** A file with neither path nor name is never taken for a database. */
  lemma UnknownFileNeverMatches(f: DroppedFile)
    requires f.path.None? && f.name == []
    ensures !IsKdbx(f)
  {
  }

  /** The path the scan hands back is the path of a dropped file, and it ends with ".kdbx". */
  lemma DroppedTargetIsKdbxPath(files: seq<DroppedFile>)
    ensures DroppedTarget(files).Some? ==>
      EndsWithKdbx(DroppedTarget(files).value) &&
      exists k :: 0 <= k < |files| && files[k].path == DroppedTarget(files)
  {
    if DroppedTarget(files).Some? {
      var k := FirstKdbx(files).value;
      assert files[k].path == DroppedTarget(files);
    }
  }

  /** The scan finds nothing exactly when no file's info text ends with ".kdbx", or the first one that does has no path. */
  lemma DroppedTargetNone(files: seq<DroppedFile>)
    ensures DroppedTarget(files).None? <==>
      (forall j :: 0 <= j < |files| ==> !IsKdbx(files[j])) ||
      (exists k :: 0 <= k < |files| && IsKdbx(files[k]) && files[k].path.None? &&
                   forall j :: 0 <= j < k ==> !IsKdbx(files[j]))
  {
    if DroppedTarget(files).None? && FirstKdbx(files).Some? {
      var k := FirstKdbx(files).value;
      assert files[k].path.None?;
    }
  }

  /** The first match is the only index that is a match with no match before it. */
  lemma FirstKdbxUnique(files: seq<DroppedFile>, k: nat)
    requires k < |files| && IsKdbx(files[k])
    requires forall j :: 0 <= j < k ==> !IsKdbx(files[j])
    ensures FirstKdbx(files) == Some(k)
  {
  }

  /** The scan looks at the first file, and goes on to the rest only when that one is not a match. */
  lemma DroppedTargetCons(files: seq<DroppedFile>)
    requires files != []
    ensures DroppedTarget(files) ==
      if IsKdbx(files[0]) then files[0].path else DroppedTarget(files[1..])
  {
    var tail := files[1..];
    if IsKdbx(files[0]) {
      FirstKdbxUnique(files, 0);
    } else {
      match FirstKdbx(tail)
      case None =>
        forall j | 0 <= j < |files|
          ensures !IsKdbx(files[j])
        {
          if j > 0 { assert files[j] == tail[j - 1]; }
        }
      case Some(k) =>
        forall j | 0 <= j < k + 1
          ensures !IsKdbx(files[j])
        {
          if j > 0 { assert files[j] == tail[j - 1]; }
        }
        assert files[k + 1] == tail[k];
        FirstKdbxUnique(files, k + 1);
    }
  }

  /** Files after the first match are ignored, whatever they are. */
  lemma LaterFilesIgnored(files: seq<DroppedFile>, rest: seq<DroppedFile>)
    requires FirstKdbx(files).Some?
    ensures DroppedTarget(files + rest) == DroppedTarget(files)
  {
    var k := FirstKdbx(files).value;
    assert forall j :: 0 <= j < k ==> (files + rest)[j] == files[j];
    assert (files + rest)[k] == files[k];
    FirstKdbxUnique(files + rest, k);
  }

  /** Files that are not taken for a database can be skipped. */
  lemma NonMatchingPrefixSkipped(skipped: seq<DroppedFile>, files: seq<DroppedFile>)
    requires forall j :: 0 <= j < |skipped| ==> !IsKdbx(skipped[j])
    ensures DroppedTarget(skipped + files) == DroppedTarget(files)
  {
    var all := skipped + files;
    match FirstKdbx(files)
    case None =>
      forall j | 0 <= j < |all|
        ensures !IsKdbx(all[j])
      {
        if j < |skipped| {
          assert all[j] == skipped[j];
        } else {
          assert all[j] == files[j - |skipped|];
        }
      }
    case Some(k) =>
      forall j | 0 <= j < |skipped| + k
        ensures !IsKdbx(all[j])
      {
        if j < |skipped| {
          assert all[j] == skipped[j];
        } else {
          assert all[j] == files[j - |skipped|];
        }
      }
      assert all[|skipped| + k] == files[k];
      FirstKdbxUnique(all, |skipped| + k);
  }
}
