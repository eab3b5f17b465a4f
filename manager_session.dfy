/**
 * The session operations of manager/operation.go and the file handling of
 * manager/file.go: the placeholder file, combineFiles, and the lifecycle flags
 * changed by Download, Pause, Resume, Abort and complete. Initialize and the
 * temporary-file helpers of these two files are the same code as InitializeDownload
 * and CreateTemporaryFile in manager/download.go and are modelled once, there.
 */
module ManagerSession {
  import opened Common
  import opened Environment
  import opened FlagStates
  import opened Reassembly
  import opened ManagerModel

  /** The fetches Download launches, in launch order (each runs in its own goroutine). */
  datatype Fetch = ConcurrentFetch | AtomicFetch

  /** The error combineFiles reports for an empty temporary-file list. */
  const NoTempFiles: string := "must have at least 1 temporary file"

  /** Whether Download launches the concurrent fetch: ranges allowed or unknown, and more than one connection. */
  predicate LaunchesConcurrent(s: DownloadState)
  {
    (s.isConcurrentConnectionAllowed == Allowed || s.isConcurrentConnectionAllowed == Unknown)
    && s.maxNrOfConcurrentConnection > 1
  }

  /**
   * createPlaceHolderFile: os.Create on the save path, which leaves an empty file
   * there; an error is ignored and then nothing changes.
   */
  method CreatePlaceHolderFile(d: Download, disk: Disk)
    modifies disk
    ensures disk.files == if d.saveFullPath in disk.denied then old(disk.files)
                          else old(disk.files)[d.saveFullPath := []]
  {
    var _ := disk.OpenForWrite(d.saveFullPath, true);
  }

  /**
   * combineFiles: appends every later temporary file to the first, renames the
   * first to the save path and removes the others; the first failure returns its
   * error, and a failed rename aborts the session first.
   */
  method CombineFiles(d: Download, disk: Disk) returns (o: Outcome)
    requires CombineAborts(disk, disk.files, d.tempFileList, d.saveFullPath) ==> d.ctx != NoContext
    modifies d, disk
    ensures var r := CombineRun(disk, old(disk.files), old(d.tempFileList), old(d.saveFullPath));
      && (o.Pass? <==> r.ok)
      && disk.files == r.files
    ensures old(d.tempFileList) == [] ==> o == Fail(NoTempFiles)
    ensures d.State() ==
      if CombineAborts(disk, old(disk.files), old(d.tempFileList), old(d.saveFullPath))
      then old(d.State()).(ctx := Cancelled, isDownloadAborted := true, isDownloadRunning := false)
      else old(d.State())
  {
    if |d.tempFileList| < 1 {
      return Fail(NoTempFiles);
    }
    var list := d.tempFileList;
    var first := list[0];
    o := disk.OpenExisting(first);
    if o.Fail? {
      return;
    }
    o := CopyRest(disk, first, list[1..]);
    if o.Fail? {
      return;
    }
    o := disk.Rename(first, d.saveFullPath);
    if o.Fail? {
      Abort(d);
      return;
    }
    o := RemoveRest(disk, list[1..]);
  }

  /** The copy loop of combineFiles: each file of `rest` is opened and appended to `first`. */
  method CopyRest(disk: Disk, first: string, rest: seq<string>) returns (o: Outcome)
    requires first in disk.files
    modifies disk
    ensures var r := AppendStage(disk, old(disk.files), first, rest);
      (o.Pass? <==> r.ok) && disk.files == r.files
  {
    ghost var appended := AppendStage(disk, disk.files, first, rest);
    var remaining := rest;
    while remaining != []
      invariant first in disk.files
      invariant appended == AppendStage(disk, disk.files, first, remaining)
    {
      var v := remaining[0];
      o := disk.OpenExisting(v);
      if o.Fail? {
        return;
      }
      o := disk.Copy(first, v);
      if o.Fail? {
        return;
      }
      remaining := remaining[1..];
    }
    o := Pass;
  }

  /** The removal loop of combineFiles: each file of `rest` is removed. */
  method RemoveRest(disk: Disk, rest: seq<string>) returns (o: Outcome)
    modifies disk
    ensures var r := RemoveStage(disk, old(disk.files), rest);
      (o.Pass? <==> r.ok) && disk.files == r.files
  {
    ghost var removed := RemoveStage(disk, disk.files, rest);
    var remaining := rest;
    while remaining != []
      invariant removed == RemoveStage(disk, disk.files, remaining)
    {
      o := disk.Remove(remaining[0]);
      if o.Fail? {
        return;
      }
      remaining := remaining[1..];
    }
    o := Pass;
  }

  /**
   * Download (operation.go): refused once started; otherwise marks the session
   * started, creates the placeholder, and launches the concurrent fetch when
   * LaunchesConcurrent holds, then the single-connection fetch in every case.
   */
  method Download(d: Download, disk: Disk) returns (o: Outcome, launched: seq<Fetch>)
    modifies d, disk
    ensures old(d.isDownloadStarted) ==>
      && o == Fail(AlreadyStarted) && launched == []
      && d.State() == old(d.State()) && disk.files == old(disk.files)
    ensures !old(d.isDownloadStarted) ==>
      && o == Pass
      && d.State() == old(d.State()).(isDownloadStarted := true)
      && disk.files == (if d.saveFullPath in disk.denied then old(disk.files)
                        else old(disk.files)[d.saveFullPath := []])
      && launched == (if LaunchesConcurrent(old(d.State())) then [ConcurrentFetch] else []) + [AtomicFetch]
  {
    launched := [];
    if d.isDownloadStarted {
      return Fail(AlreadyStarted), launched;
    }
    var _ := d.SetIsDownloadStarted(true);
    CreatePlaceHolderFile(d, disk);
    if (d.isConcurrentConnectionAllowed == Allowed || d.isConcurrentConnectionAllowed == Unknown)
       && d.maxNrOfConcurrentConnection > 1 {
      launched := launched + [ConcurrentFetch];
    }
    launched := launched + [AtomicFetch];
    o := Pass;
  }

  /** Pause: the session stops running, whatever its state. */
  method Pause(d: Download) returns (o: Outcome)
    modifies d
    ensures o == Pass && d.State() == old(d.State()).(isDownloadRunning := false)
  {
    o := d.SetIsDownloadRunning(false);
  }

  /** Resume: the session runs again, whatever its state (even aborted or completed). */
  method Resume(d: Download) returns (o: Outcome)
    modifies d
    ensures o == Pass && d.State() == old(d.State()).(isDownloadRunning := true)
  {
    o := d.SetIsDownloadRunning(true);
  }

  /**
   * Abort: cancels the context (its cancel function must have been installed, or
   * the call panics), marks the session aborted and not running.
   */
  method Abort(d: Download)
    requires d.ctx != NoContext
    modifies d
    ensures d.State() == old(d.State()).(ctx := Cancelled, isDownloadAborted := true, isDownloadRunning := false)
  {
    var _ := d.SetCtx(Cancelled);
    d.isDownloadAborted := true;
    var _ := d.SetIsDownloadRunning(false);
  }

  /** complete: the session is completed and no longer running. */
  method Complete(d: Download)
    modifies d
    ensures d.State() == old(d.State()).(isDownloadCompleted := true, isDownloadRunning := false)
  {
    var _ := d.SetIsDownloadCompleted(true);
    var _ := d.SetIsDownloadRunning(false);
  }
}
