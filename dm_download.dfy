/**
 * The operations of the internal downloadManager package
 * (downloadManager/downloadManager.go): the probe and its header decision, Download
 * with its single-connection path, and temporary-file allocation.
 */
module DmDownload {
  import opened Common
  import opened Environment
  import FlagStates
  import Capability
  import opened TempNames
  import opened DmModel

  /** The error RetrieveDownloadDetails reports once the download has started. */
  const AlreadyInitialized: string := "download has already been initialized"

  /** The error Download reports when called a second time. */
  const AlreadyStarted: string := "download has already started before. Did you mean resume download "

  /**
   * The value both feature flags receive from a probe response
   * (downloadManager.go:66-93): the same table as the manager package's, on the
   * package's own FeatureStatus.
   */
  function FeatureSupport(contentLength: int, acceptRanges: Option<HeaderValues>): (f: FeatureStatus)
    ensures f as int == Capability.RangeSupport(contentLength, acceptRanges) as int
  {
    if contentLength > 0 then
      match acceptRanges
      case Some(values) => if values[0] == "none" then NotAllowed else Allowed
      case None => Unknown
    else
      NotAllowed
  }

  /** The feature table row by row: notAllowed without a length or for "none", unknown without the header. */
  lemma FeatureSupportTable(contentLength: int, acceptRanges: Option<HeaderValues>)
    ensures var f := FeatureSupport(contentLength, acceptRanges);
      && (contentLength <= 0 ==> f == NotAllowed)
      && (contentLength > 0 && acceptRanges.None? ==> f == Unknown)
      && (contentLength > 0 && acceptRanges.Some? && acceptRanges.value[0] == "none" ==> f == NotAllowed)
      && (contentLength > 0 && acceptRanges.Some? && acceptRanges.value[0] != "none" ==> f == Allowed)
  {
    var g := Capability.RangeSupport(contentLength, acceptRanges);
    assert g == FlagStates.Allowed || g == FlagStates.Unknown || g == FlagStates.NotAllowed;
  }

  /**
   * InitializeDownload: installs a new context, probes the URL, keeps the response
   * and sets both feature flags from it. A transport error returns before either
   * flag changes.
   */
  method InitializeDownload(d: DownloadManager, t: Transport) returns (o: Outcome)
    requires d.downloadUrl.Some?
    modifies d
    ensures var r := t(Request(old(d.downloadUrl).value.text, None));
      && (o.Pass? <==> r.Ok?)
      && (r.Err? ==> o == Fail(r.message) && d.State() == old(d.State()).(ctx := Live))
      && (r.Ok? ==>
            var f := FeatureSupport(r.value.contentLength, r.value.acceptRanges);
            d.State() == old(d.State()).(ctx := Live, response := Some(r.value),
                                         isConcurrentAllowed := f, isPausedAllowed := f))
  {
    var _ := d.SetCtx(Live);
    var response := t(Request(d.downloadUrl.value.text, None));
    if response.Err? {
      return Fail(response.message);
    }
    var _ := d.SetResponse(Some(response.value));
    var res := response.value;
    if res.contentLength > 0 {
      match res.acceptRanges
      case Some(acceptRanges) =>
        if acceptRanges[0] == "none" {
          var _ := d.SetIsConcurrentAllowed(NotAllowed);
          var _ := d.SetIsPausedAllowed(NotAllowed);
        } else {
          var _ := d.SetIsConcurrentAllowed(Allowed);
          var _ := d.SetIsPausedAllowed(Allowed);
        }
      case None =>
        var _ := d.SetIsConcurrentAllowed(Unknown);
        var _ := d.SetIsPausedAllowed(Unknown);
    } else {
      var _ := d.SetIsConcurrentAllowed(NotAllowed);
      var _ := d.SetIsPausedAllowed(NotAllowed);
    }
    o := Pass;
  }

  /** RetrieveDownloadDetails: refused without probing once started, else InitializeDownload. */
  method RetrieveDownloadDetails(d: DownloadManager, t: Transport) returns (o: Outcome)
    requires !d.isDownloadStarted ==> d.downloadUrl.Some?
    modifies d
    ensures old(d.isDownloadStarted) ==> o == Fail(AlreadyInitialized) && d.State() == old(d.State())
    ensures !old(d.isDownloadStarted) ==>
      var r := t(Request(old(d.downloadUrl).value.text, None));
      && (o.Pass? <==> r.Ok?)
      && (r.Err? ==> o == Fail(r.message) && d.State() == old(d.State()).(ctx := Live))
      && (r.Ok? ==>
            var f := FeatureSupport(r.value.contentLength, r.value.acceptRanges);
            d.State() == old(d.State()).(ctx := Live, response := Some(r.value),
                                         isConcurrentAllowed := f, isPausedAllowed := f))
  {
    if d.isDownloadStarted {
      return Fail(AlreadyInitialized);
    }
    o := InitializeDownload(d, t);
  }

  /**
   * CreateTemporaryFile: moves the counter to the first value above it whose
   * temporary path is free and lists that path, but the file it opens (creating it
   * if missing, without truncating) is the save path itself, not the temporary one.
   * When that open fails the counter has still moved and nothing is listed.
   */
  method CreateTemporaryFile(d: DownloadManager, disk: Disk) returns (r: Result<string>)
    requires !disk.InUnstatableDir(d.saveFullPath)
    modifies d, disk
    ensures var k := NextFree(old(d.saveFullPath), old(disk.Listed()), old(d.tempAppender));
      var path := TempPath(old(d.saveFullPath), k);
      && (r.Ok? <==> d.saveFullPath !in disk.denied)
      && (r.Err? ==> d.State() == old(d.State()).(tempAppender := k) && disk.files == old(disk.files))
      && (r.Ok? ==> r.value == d.saveFullPath
                    && d.State() == old(d.State()).(tempAppender := k, tempFileLists := old(d.tempFileLists) + [path])
                    && disk.files == if d.saveFullPath in old(disk.files) then old(disk.files)
                                     else old(disk.files)[d.saveFullPath := []])
    decreases Pow10(MaxLength(disk.Listed())) - d.tempAppender
  {
    ghost var base, listed, counter := d.saveFullPath, disk.Listed(), d.tempAppender;
    var _ := d.IncrementTempAppender();
    var tempFilePath := TempPath(d.saveFullPath, d.tempAppender);
    TempPathInside(disk.unstatableDirs, base, counter + 1);
    if disk.IsFileExist(tempFilePath) {
      NextFreeRetry(base, listed, counter);
      r := CreateTemporaryFile(d, disk);
      return;
    }
    NextFreeImmediate(base, listed, counter);
    r := OpenSaveFileAndList(d, disk, tempFilePath);
  }

  /** The end of CreateTemporaryFile: opens the save path, then lists `tempFilePath`. */
  method OpenSaveFileAndList(d: DownloadManager, disk: Disk, tempFilePath: string) returns (r: Result<string>)
    modifies d, disk
    ensures r.Ok? <==> d.saveFullPath !in disk.denied
    ensures r.Err? ==> d.State() == old(d.State()) && disk.files == old(disk.files)
    ensures r.Ok? ==> r.value == d.saveFullPath
                      && d.State() == old(d.State()).(tempFileLists := old(d.tempFileLists) + [tempFilePath])
                      && disk.files == if d.saveFullPath in old(disk.files) then old(disk.files)
                                       else old(disk.files)[d.saveFullPath := []]
  {
    var handle := disk.OpenForWrite(d.saveFullPath, false);
    if handle.Fail? {
      return Err(handle.message);
    }
    var _ := d.SetTempFileList(tempFilePath);
    r := Ok(d.saveFullPath);
  }

  /**
   * StartAtomicDownload: the response body is written from offset 0 into the file
   * CreateTemporaryFile opened, which is the save path.
   */
  method StartAtomicDownload(d: DownloadManager, disk: Disk) returns (o: Outcome)
    requires d.response.Some? && !disk.InUnstatableDir(d.saveFullPath)
    modifies d, disk
    ensures var k := NextFree(old(d.saveFullPath), old(disk.Listed()), old(d.tempAppender));
      var path := TempPath(old(d.saveFullPath), k);
      var body := old(d.response).value;
      var target := old(d.saveFullPath);
      && (target in disk.denied ==> o.Fail? && d.State() == old(d.State()).(tempAppender := k)
                                    && disk.files == old(disk.files))
      && (target !in disk.denied ==>
            && (o.Pass? <==> !body.bodyFails)
            && d.State() == old(d.State()).(tempAppender := k, tempFileLists := old(d.tempFileLists) + [path])
            && disk.files == old(disk.files)[target := WrittenFromStart(
                                               if target in old(disk.files) then old(disk.files)[target] else [],
                                               body.body)])
  {
    var tempFile := CreateTemporaryFile(d, disk);
    if tempFile.Err? {
      return Fail(tempFile.message);
    }
    o := disk.WriteBody(tempFile.value, d.response.value);
  }

  /** StartConcurrentDownload: its body is commented out; it returns nil. */
  method StartConcurrentDownload(d: DownloadManager) returns (o: Outcome)
    ensures o == Pass
  {
    o := Pass;
  }

  /**
   * Download: first sets the concurrency flag to notAllowed (even when it then
   * fails), refuses a second start, marks the download started and, the flag
   * being notAllowed, always takes the single-connection path.
   */
  method Download(d: DownloadManager, disk: Disk) returns (o: Outcome)
    requires !d.isDownloadStarted ==> d.response.Some? && !disk.InUnstatableDir(d.saveFullPath)
    modifies d, disk
    ensures old(d.isDownloadStarted) ==>
      && o == Fail(AlreadyStarted)
      && d.State() == old(d.State()).(isConcurrentAllowed := NotAllowed)
      && disk.files == old(disk.files)
    ensures !old(d.isDownloadStarted) ==>
      && d.isDownloadStarted && d.isConcurrentAllowed == NotAllowed
      && d.tempAppender == NextFree(old(d.saveFullPath), old(disk.Listed()), old(d.tempAppender))
  {
    var _ := d.SetIsConcurrentAllowed(NotAllowed);
    if d.isDownloadStarted {
      return Fail(AlreadyStarted);
    }
    var _ := d.SetIsDownloadStarted(true);
    if d.isConcurrentAllowed == Allowed {
      o := StartConcurrentDownload(d);
    } else {
      o := StartAtomicDownload(d, disk);
    }
  }
}
