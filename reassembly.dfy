/**
 * What reassembling the downloaded parts does to the file system, as functions on
 * the map from path to contents: combineFiles (manager/file.go:68-119) and the
 * merge at the end of StartConcurrentDownload (manager/download.go:248-266).
 */
module Reassembly {
  import opened Common
  import opened Environment

  type Files = map<string, seq<Byte>>

  /** Every listed path is an existing file. */
  predicate AllIn(files: Files, list: seq<string>)
  {
    forall v :: v in list ==> v in files
  }

  /** The contents of the listed files, concatenated in list order. */
  function Contents(files: Files, list: seq<string>): seq<Byte>
    requires AllIn(files, list)
  {
    if list == [] then [] else files[list[0]] + Contents(files, list[1..])
  }

  /** Contents reads only the listed files. */
  lemma {:induction false} ContentsFrame(f: Files, g: Files, list: seq<string>)
    requires AllIn(f, list) && AllIn(g, list)
    requires forall v :: v in list ==> f[v] == g[v]
    ensures Contents(f, list) == Contents(g, list)
  {
    if list != [] {
      ContentsFrame(f, g, list[1..]);
    }
  }

  /** The files after appending each of `rest`, in order, to the end of `first` (file.go:84-98). */
  function AppendAll(files: Files, first: string, rest: seq<string>): (r: Files)
    requires first in files && AllIn(files, rest)
    ensures r.Keys == files.Keys
    decreases |rest|
  {
    if rest == [] then files
    else AppendAll(files[first := files[first] + files[rest[0]]], first, rest[1..])
  }

  /**
   * When `first` is not among `rest`, appending leaves `first` holding its old
   * contents followed by those of `rest` in order, and every other file as it was.
   */
  lemma {:induction false} AppendAllConcatenates(files: Files, first: string, rest: seq<string>)
    requires first in files && AllIn(files, rest) && first !in rest
    ensures AppendAll(files, first, rest)[first] == files[first] + Contents(files, rest)
    ensures forall p :: p in files && p != first ==> AppendAll(files, first, rest)[p] == files[p]
    decreases |rest|
  {
    if rest != [] {
      var next := files[first := files[first] + files[rest[0]]];
      AppendAllConcatenates(next, first, rest[1..]);
      ContentsFrame(next, files, rest[1..]);
      assert files[first] + files[rest[0]] + Contents(files, rest[1..])
          == files[first] + (files[rest[0]] + Contents(files, rest[1..]));
    }
  }

  /**
   * The files after a combineFiles in which every step succeeds: the rest appended
   * to the first temporary file, the first renamed to `target`, the rest removed.
   */
  function Combined(files: Files, list: seq<string>, target: string): Files
    requires |list| >= 1 && AllIn(files, list)
  {
    var appended := AppendAll(files, list[0], list[1..]);
    (appended - {list[0]})[target := appended[list[0]]] - Elements(list[1..])
  }

  /**
   * A successful combineFiles over distinct temporary files, none of them the
   * target except possibly the first, leaves at `target` the concatenation of the
   * temporary files in list order, removes every temporary file, and leaves every
   * other file as it was.
   */
  lemma CombinedReassembles(files: Files, list: seq<string>, target: string)
    requires |list| >= 1 && AllIn(files, list) && Distinct(list) && target !in list[1..]
    ensures var r := Combined(files, list, target);
      && target in r && r[target] == Contents(files, list)
      && (forall v :: v in list && v != target ==> v !in r)
      && (forall p :: p in files && p !in list && p != target ==> p in r && r[p] == files[p])
  {
    AppendAllConcatenates(files, list[0], list[1..]);
  }

  /**
   * The merge at the end of StartConcurrentDownload, from the point where the
   * target is open: each listed file is opened (a failure panics: None), copied to
   * the end of the target (a read failure is ignored) and removed (a failure is
   * ignored).
   */
  function MergeRest(disk: Disk, files: Files, target: string, list: seq<string>): Option<Files>
    decreases |list|
  {
    if list == [] then Some(files)
    else
      var v := list[0];
      if v !in files || v in disk.denied then None
      else
        var copied := if v in disk.unreadable || target !in files then files
                      else files[target := files[target] + files[v]];
        MergeRest(disk, copied - {v}, target, list[1..])
  }

  /**
   * When every listed file exists, can be opened and read, is listed once and is not
   * the target, the merge appends their contents in list order to the target,
   * removes all of them, and leaves every other file as it was.
   */
  lemma {:induction false} MergeReassembles(disk: Disk, files: Files, target: string, list: seq<string>)
    requires target in files && target !in list && AllIn(files, list) && Distinct(list)
    requires forall v :: v in list ==> v !in disk.denied && v !in disk.unreadable
    ensures var r := MergeRest(disk, files, target, list);
      && r.Some?
      && target in r.value && r.value[target] == files[target] + Contents(files, list)
      && r.value.Keys == files.Keys - Elements(list)
      && (forall p :: p in files && p !in list && p != target ==> r.value[p] == files[p])
    decreases |list|
  {
    if list != [] {
      var v := list[0];
      var next := files[target := files[target] + files[v]] - {v};
      assert forall w :: w in list[1..] ==> w in list && w != v by {
        forall w | w in list[1..] ensures w in list && w != v {
          var j :| 0 <= j < |list[1..]| && list[1..][j] == w;
          assert list[j + 1] == w;
        }
      }
      MergeReassembles(disk, next, target, list[1..]);
      ContentsFrame(next, files, list[1..]);
      assert files[target] + files[v] + Contents(files, list[1..])
          == files[target] + (files[v] + Contents(files, list[1..]));
    }
  }

  /** A merge that gets through its list opened every listed file: none of them is denied. */
  lemma {:induction false} MergeSomeNotDenied(disk: Disk, files: Files, target: string, list: seq<string>)
    requires MergeRest(disk, files, target, list).Some?
    ensures forall v :: v in list ==> v !in disk.denied
    decreases |list|
  {
    if list != [] {
      var v := list[0];
      var copied := if v in disk.unreadable || target !in files then files
                    else files[target := files[target] + files[v]];
      MergeSomeNotDenied(disk, copied - {v}, target, list[1..]);
      assert forall w :: w in list ==> w == v || w in list[1..];
    }
  }

  /** The file system after a stage of combineFiles, and whether every step of it succeeded. */
  datatype Staged = Staged(files: Files, ok: bool)

  /**
   * The copy loop of combineFiles (file.go:84-98): each later file is opened and
   * appended to the end of `first`; the first open or read that fails stops it.
   */
  function AppendStage(disk: Disk, files: Files, first: string, rest: seq<string>): (r: Staged)
    requires first in files
    ensures r.files.Keys == files.Keys
    ensures forall p :: p in files && p != first ==> r.files[p] == files[p]
    ensures r.ok ==> AllIn(files, rest) && r.files == AppendAll(files, first, rest)
    decreases |rest|
  {
    if rest == [] then Staged(files, true)
    else
      var v := rest[0];
      if v !in files || v in disk.denied || v in disk.unreadable then Staged(files, false)
      else AppendStage(disk, files[first := files[first] + files[v]], first, rest[1..])
  }

  /** The removal loop of combineFiles (file.go:110-114): the first failing removal stops it. */
  function RemoveStage(disk: Disk, files: Files, rest: seq<string>): (r: Staged)
    ensures r.files.Keys <= files.Keys
    ensures r.ok ==> AllIn(files, rest) && r.files == files - Elements(rest)
    decreases |rest|
  {
    if rest == [] then Staged(files, true)
    else
      var v := rest[0];
      if v !in files || v in disk.denied then Staged(files, false)
      else RemoveStage(disk, files - {v}, rest[1..])
  }

  /**
   * combineFiles as a whole: the files left behind and whether it returned nil.
   * An empty list, a first file that cannot be opened, a failed copy or a failed
   * rename each stop it with an error.
   */
  function CombineRun(disk: Disk, files: Files, list: seq<string>, target: string): (r: Staged)
    ensures r.ok ==> |list| >= 1 && AllIn(files, list) && r.files == Combined(files, list, target)
    ensures !CopiesAll(disk, files, list) || target in disk.denied ==>
      && !r.ok
      && r.files.Keys == files.Keys
      && (forall p :: p in files && (list == [] || p != list[0]) ==> r.files[p] == files[p])
  {
    if list == [] || list[0] !in files || list[0] in disk.denied then Staged(files, false)
    else
      var appended := AppendStage(disk, files, list[0], list[1..]);
      if !appended.ok then appended
      else if target in disk.denied then Staged(appended.files, false)
      else RemoveStage(disk, (appended.files - {list[0]})[target := appended.files[list[0]]], list[1..])
  }

  /** Whether combineFiles gets past its copy loop: the first file opens and every copy succeeds. */
  predicate CopiesAll(disk: Disk, files: Files, list: seq<string>)
  {
    && list != [] && list[0] in files && list[0] !in disk.denied
    && AppendStage(disk, files, list[0], list[1..]).ok
  }

  /** Whether combineFiles reaches the rename and the rename fails (it then aborts the session). */
  predicate CombineAborts(disk: Disk, files: Files, list: seq<string>, target: string)
  {
    CopiesAll(disk, files, list) && target in disk.denied
  }

  /**
   * A successful combineFiles over distinct temporary files, none of them the
   * target except possibly the first, leaves at `target` the temporary files'
   * contents in list order, no temporary file, and every other file as it was.
   */
  lemma CombineFilesReassembles(disk: Disk, files: Files, list: seq<string>, target: string)
    requires CombineRun(disk, files, list, target).ok
    requires Distinct(list) && target !in list[1..]
    ensures var r := CombineRun(disk, files, list, target).files;
      && target in r && r[target] == Contents(files, list)
      && (forall v :: v in list && v != target ==> v !in r)
      && (forall p :: p in files && p !in list && p != target ==> p in r && r[p] == files[p])
  {
    CombinedReassembles(files, list, target);
  }

  /** The removal loop succeeds on distinct files that all exist and may be removed. */
  lemma {:induction false} RemoveStageSucceeds(disk: Disk, files: Files, rest: seq<string>)
    requires AllIn(files, rest) && Distinct(rest)
    requires forall v :: v in rest ==> v !in disk.denied
    ensures RemoveStage(disk, files, rest).ok
    decreases |rest|
  {
    if rest != [] {
      assert forall k :: 0 <= k < |rest| - 1 ==> rest[1..][k] == rest[k + 1];
      RemoveStageSucceeds(disk, files - {rest[0]}, rest[1..]);
    }
  }

  /** The copy loop succeeds when every later file exists, may be opened and is readable. */
  lemma {:induction false} AppendStageSucceeds(disk: Disk, files: Files, first: string, rest: seq<string>)
    requires first in files && AllIn(files, rest)
    requires forall v :: v in rest ==> v !in disk.denied && v !in disk.unreadable
    ensures AppendStage(disk, files, first, rest).ok
    decreases |rest|
  {
    if rest != [] {
      AppendStageSucceeds(disk, files[first := files[first] + files[rest[0]]], first, rest[1..]);
    }
  }

  /**
   * combineFiles succeeds on a non-empty list of distinct existing temporary files
   * that may be opened, read and removed, none of them the target except possibly
   * the first, when the target may be written.
   */
  lemma CombineFilesSucceeds(disk: Disk, files: Files, list: seq<string>, target: string)
    requires |list| >= 1 && AllIn(files, list) && Distinct(list) && target !in list[1..]
    requires forall v :: v in list ==> v !in disk.denied && v !in disk.unreadable
    requires target !in disk.denied
    ensures CombineRun(disk, files, list, target).ok
  {
    AppendStageSucceeds(disk, files, list[0], list[1..]);
    var appended := AppendAll(files, list[0], list[1..]);
    var renamed := (appended - {list[0]})[target := appended[list[0]]];
    assert forall k :: 0 <= k < |list| - 1 ==> list[1..][k] == list[k + 1];
    RemoveStageSucceeds(disk, renamed, list[1..]);
  }
}
