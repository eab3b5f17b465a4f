/**
 * The download operations of manager/download.go: the probe and its header decision,
 * the choice between one connection and several, the per-range part downloads, the
 * merge of the parts, and temporary-file allocation. Goroutines run in sequence here.
 */
module ManagerDownload {
  import opened Common
  import opened Environment
  import opened FlagStates
  import opened Capability
  import opened RangePlan
  import opened TempNames
  import opened Reassembly
  import opened ManagerModel
  import opened ManagerFactory

  /**
   * sendHTTPRequest: installs a new context, then sends a GET for the session's URL
   * with the optional Range header; a response is kept, an error returned.
   */
  method SendHTTPRequest(d: Download, t: Transport, range: Option<string>) returns (o: Outcome)
    requires d.downloadURL.Some?
    modifies d
    ensures var r := t(Request(old(d.downloadURL).value.text, range));
      && (o.Pass? <==> r.Ok?)
      && (r.Err? ==> o == Fail(r.message) && d.State() == old(d.State()).(ctx := Live))
      && (r.Ok? ==> d.State() == old(d.State()).(ctx := Live, response := Some(r.value)))
  {
    var _ := d.SetCtx(Live);
    var r := t(Request(d.DownloadURLText(), range));
    if r.Err? {
      return Fail(r.message);
    }
    var _ := d.SetResponse(Some(r.value));
    o := Pass;
  }

  /** processRequestHeader: both flags get the range-support decision for the kept response. */
  method ProcessRequestHeader(d: Download) returns (o: Outcome)
    requires d.response.Some?
    modifies d
    ensures var f := RangeSupport(old(d.response).value.contentLength, old(d.response).value.acceptRanges);
      && o == Pass
      && d.State() == old(d.State()).(isConcurrentConnectionAllowed := f, isPausedAllowed := f)
  {
    var res := d.response.value;
    if res.contentLength > 0 {
      match res.acceptRanges
      case Some(acceptRanges) =>
        if acceptRanges[0] == "none" {
          SetRangeFlags(d, NotAllowed);
        } else {
          SetRangeFlags(d, Allowed);
        }
      case None =>
        SetRangeFlags(d, Unknown);
    } else {
      SetRangeFlags(d, NotAllowed);
    }
    o := Pass;
  }

  /** The two setter calls each branch of processRequestHeader makes with the same state. */
  method SetRangeFlags(d: Download, f: FlagState)
    modifies d
    ensures d.State() == old(d.State()).(isConcurrentConnectionAllowed := f, isPausedAllowed := f)
  {
    var _ := d.SetIsConcurrentConnectionAllowed(f);
    var _ := d.SetIsPausedAllowed(f);
  }

  /**
   * InitializeDownload: refused while running; otherwise probe, decide both flags
   * from the response, and mark the session initialized.
   */
  method InitializeDownload(d: Download, t: Transport) returns (o: Outcome)
    requires !d.isDownloadRunning ==> d.downloadURL.Some?
    modifies d
    ensures old(d.isDownloadRunning) ==> o == Fail(CurrentlyRunning) && d.State() == old(d.State())
    ensures !old(d.isDownloadRunning) ==>
      var r := t(Request(old(d.downloadURL).value.text, None));
      && (o.Pass? <==> r.Ok?)
      && (r.Err? ==> o == Fail(r.message) && d.State() == old(d.State()).(ctx := Live))
      && (r.Ok? ==>
            var f := RangeSupport(r.value.contentLength, r.value.acceptRanges);
            d.State() == old(d.State()).(ctx := Live, response := Some(r.value),
                                         isConcurrentConnectionAllowed := f, isPausedAllowed := f,
                                         isDownloadInitialized := true))
  {
    if d.isDownloadRunning {
      return Fail(CurrentlyRunning);
    }
    o := SendHTTPRequest(d, t, None);
    if o.Fail? {
      return;
    }
    o := ProcessRequestHeader(d);
    o := d.SetIsDownloadInitialized(true);
  }

  /** incrementTempFileAppender. */
  method IncrementTempFileAppender(d: Download)
    modifies d
    ensures d.State() == old(d.State()).(tempFileNameAppender := old(d.tempFileNameAppender) + 1)
  {
    var _ := d.SetTempFileNameAppender(d.tempFileNameAppender + 1);
  }

  /** appendToTempFileList: one path at the end, earlier entries kept. */
  method AppendToTempFileList(d: Download, tempFilePath: string)
    modifies d
    ensures d.State() == old(d.State()).(tempFileList := old(d.tempFileList) + [tempFilePath])
  {
    var _ := d.SetTempFileList(d.tempFileList + [tempFilePath]);
  }

  /**
   * CreateTemporaryFile: moves the counter to the first value above it whose
   * temporary path is free, creates that file and lists it. When the file cannot be
   * created the counter has still moved and nothing is listed.
   */
  method CreateTemporaryFile(d: Download, disk: Disk) returns (r: Result<string>)
    requires !disk.InUnstatableDir(d.saveFullPath)
    modifies d, disk
    ensures var k := NextFree(old(d.saveFullPath), old(disk.Listed()), old(d.tempFileNameAppender));
      var path := TempPath(old(d.saveFullPath), k);
      && (r.Ok? <==> path !in disk.denied)
      && (r.Err? ==> d.State() == old(d.State()).(tempFileNameAppender := k) && disk.files == old(disk.files))
      && (r.Ok? ==> r.value == path
                    && d.State() == old(d.State()).(tempFileNameAppender := k, tempFileList := old(d.tempFileList) + [path])
                    && disk.files == old(disk.files)[path := []])
    decreases Pow10(MaxLength(disk.Listed())) - d.tempFileNameAppender
  {
    ghost var base, listed, counter := d.saveFullPath, disk.Listed(), d.tempFileNameAppender;
    IncrementTempFileAppender(d);
    var path := TempPath(d.saveFullPath, d.tempFileNameAppender);
    TempPathInside(disk.unstatableDirs, base, counter + 1);
    if disk.IsFileExist(path) {
      NextFreeRetry(base, listed, counter);
      assert disk.Listed() == listed && d.saveFullPath == base;
      r := CreateTemporaryFile(d, disk);
      return;
    }
    NextFreeImmediate(base, listed, counter);
    r := CreateListedFile(d, disk, path);
  }

  /** The end of CreateTemporaryFile: creates the free path `path` and lists it. */
  method CreateListedFile(d: Download, disk: Disk, path: string) returns (r: Result<string>)
    requires path !in disk.files
    modifies d, disk
    ensures r.Ok? <==> path !in disk.denied
    ensures r.Err? ==> d.State() == old(d.State()) && disk.files == old(disk.files)
    ensures r.Ok? ==> r.value == path && disk.files == old(disk.files)[path := []]
                      && d.State() == old(d.State()).(tempFileList := old(d.tempFileList) + [path])
  {
    var handle := disk.OpenForWrite(path, false);
    if handle.Fail? {
      return Err(handle.message);
    }
    AppendToTempFileList(d, path);
    r := Ok(path);
  }

  /**
   * StartAtomicDownload: one temporary file receives the whole response body;
   * the session is marked running once the file exists.
   */
  method StartAtomicDownload(d: Download, disk: Disk) returns (o: Outcome)
    requires d.response.Some? && !disk.InUnstatableDir(d.saveFullPath)
    modifies d, disk
    ensures var k := NextFree(old(d.saveFullPath), old(disk.Listed()), old(d.tempFileNameAppender));
      var path := TempPath(old(d.saveFullPath), k);
      var body := old(d.response).value;
      && (path in disk.denied ==> o.Fail? && d.State() == old(d.State()).(tempFileNameAppender := k)
                                  && disk.files == old(disk.files))
      && (path !in disk.denied ==>
            && (o.Pass? <==> !body.bodyFails)
            && d.State() == old(d.State()).(tempFileNameAppender := k, tempFileList := old(d.tempFileList) + [path],
                                            isDownloadRunning := true)
            && disk.files == old(disk.files)[path := body.body])
  {
    var tempFile := CreateTemporaryFile(d, disk);
    if tempFile.Err? {
      return Fail(tempFile.message);
    }
    var _ := d.SetIsDownloadRunning(true);
    o := disk.WriteBody(tempFile.value, d.response.value);
  }

  /**
   * The session a part download runs in: built by NewDownload from the parent's
   * directory, file name and URL, with one connection.
   */
  function PartOptions(d: DownloadState): seq<ConfigOption>
    requires d.downloadURL.Some?
  {
    [SaveDirectory(d.saveDirectory), SaveFileName(d.saveFileName), NrOfConcurrentDownload(1),
     DownloadURL(d.downloadURL.value.text)]
  }

  /**
   * When NewDownload builds a part session for the parent `d`: its directory is
   * set and exists, its file name is set and holds no '/' once cleaned, its URL
   * parses, and Join(directory, name) is not empty.
   */
  predicate PartSessionBuilds(p: Platform, occupied: iset<string>, d: DownloadState)
    requires d.downloadURL.Some?
  {
    && d.saveDirectory != "" && p.clean(p.trimSpace(d.saveDirectory)) in occupied
    && d.saveFileName != "" && '/' !in p.clean(d.saveFileName)
    && CheckDownloadURL(p, d.downloadURL.value.text).Ok?
    && p.join(d.saveDirectory, d.saveFileName) != ""
  }

  /** NewDownload with the part options succeeds exactly when PartSessionBuilds holds. */
  lemma PartSessionBuildsIff(p: Platform, occupied: iset<string>, d: DownloadState)
    requires d.downloadURL.Some?
    ensures NewDownloadResult(p, occupied, PartOptions(d)).Ok? <==> PartSessionBuilds(p, occupied, d)
  {
    var opts := PartOptions(d);
    var s0 := ZeroDownload;
    var r1 := ApplyOption(p, occupied, s0, opts[0]);
    if r1.Err? {
      assert Configure(p, occupied, s0, opts).Err?;
      return;
    }
    var s1 := r1.value;
    assert Configure(p, occupied, s0, opts) == Configure(p, occupied, s1, opts[1..]);
    var r2 := ApplyOption(p, occupied, s1, opts[1]);
    if r2.Err? {
      assert Configure(p, occupied, s1, opts[1..]).Err?;
      return;
    }
    var s2 := r2.value;
    assert opts[1..][1..] == opts[2..];
    assert Configure(p, occupied, s1, opts[1..]) == Configure(p, occupied, s2, opts[2..]);
    var s3 := ApplyOption(p, occupied, s2, opts[2]).value;
    assert opts[2..][1..] == opts[3..];
    assert Configure(p, occupied, s2, opts[2..]) == Configure(p, occupied, s3, opts[3..]);
    var r4 := ApplyOption(p, occupied, s3, opts[3]);
    if r4.Err? {
      assert Configure(p, occupied, s3, opts[3..]).Err?;
      return;
    }
    var s4 := r4.value;
    assert opts[3..][1..] == [];
    assert Configure(p, occupied, s3, opts[3..]) == Ok(s4);
    assert s4.saveDirectory == d.saveDirectory && s4.saveFileName == d.saveFileName;
  }

  /**
   * A part session that could be built has the parent's URL parsed again, one
   * connection, the parent's directory and name, and the save path
   * Join(directory, name).
   */
  lemma PartSessionShape(p: Platform, occupied: iset<string>, d: DownloadState)
    requires d.downloadURL.Some?
    requires NewDownloadResult(p, occupied, PartOptions(d)).Ok?
    ensures var s := NewDownloadResult(p, occupied, PartOptions(d)).value;
      && CheckDownloadURL(p, d.downloadURL.value.text).Ok?
      && s.downloadURL == Some(CheckDownloadURL(p, d.downloadURL.value.text).value)
      && s.maxNrOfConcurrentConnection == 1
      && s.saveDirectory == d.saveDirectory
      && s.saveFileName == d.saveFileName
      && s.saveFullPath == p.join(d.saveDirectory, d.saveFileName)
      && s.tempFileNameAppender == 0 && s.tempFileList == []
  {
    var opts := PartOptions(d);
    var s0 := ZeroDownload;
    assert Configure(p, occupied, s0, opts).Ok?;
    var s1 := ApplyOption(p, occupied, s0, opts[0]).value;
    assert Configure(p, occupied, s1, opts[1..]).Ok?;
    var s2 := ApplyOption(p, occupied, s1, opts[1]).value;
    assert opts[1..][1..] == opts[2..];
    assert Configure(p, occupied, s2, opts[2..]).Ok?;
    var s3 := ApplyOption(p, occupied, s2, opts[2]).value;
    assert opts[2..][1..] == opts[3..];
    assert Configure(p, occupied, s3, opts[3..]).Ok?;
    var s4 := ApplyOption(p, occupied, s3, opts[3]).value;
    assert opts[3..][1..] == [];
    assert Configure(p, occupied, s0, opts) == Ok(s4);
  }

  /**
   * The merge at manager/download.go:248-266: the save path is created or
   * truncated, then each listed file is opened, appended to it and removed. The two
   * opens that panic in the source are error returns here.
   */
  method MergeTempFiles(d: Download, disk: Disk) returns (o: Outcome)
    modifies disk
    ensures var start := old(disk.files)[d.saveFullPath := []];
      var merged := MergeRest(disk, start, d.saveFullPath, d.tempFileList);
      && (o.Pass? <==> d.saveFullPath !in disk.denied && merged.Some?)
      && (o.Pass? ==> disk.files == merged.value)
  {
    var target := d.saveFullPath;
    var list := d.tempFileList;
    var handle := disk.OpenForWrite(target, true);
    if handle.Fail? {
      return handle;
    }
    ghost var merged := MergeRest(disk, disk.files, target, list);
    var remaining := list;
    while remaining != []
      invariant merged == MergeRest(disk, disk.files, target, remaining)
    {
      var v := remaining[0];
      var readable := disk.OpenExisting(v);
      if readable.Fail? {
        return readable;
      }
      var _ := disk.Copy(target, v);
      var _ := disk.Remove(v);
      remaining := remaining[1..];
    }
    o := Pass;
  }

  /**
   * The response a part session gets for `range`: its URL is the parent's URL
   * text parsed again, and the request carries the Range header.
   */
  function PartResponse(p: Platform, t: Transport, url: Url, range: ByteRange): Result<Response>
  {
    var u := CheckDownloadURL(p, url.text);
    if u.Err? then Err(u.message) else t(Request(u.value.text, Some(RangeHeader(range))))
  }

  /** The bodies the part sessions receive for `ranges`, concatenated in order. */
  function PartBodies(p: Platform, t: Transport, url: Url, ranges: seq<ByteRange>): seq<Byte>
    decreases |ranges|
  {
    if ranges == [] then []
    else
      var r := PartResponse(p, t, url, ranges[0]);
      (if r.Ok? then r.value.body else []) + PartBodies(p, t, url, ranges[1..])
  }

  /**
   * What one part download does to the disk: the part session gets the first free
   * temporary name above 0 for the parent's Join(directory, name); it succeeds
   * exactly when the session can be built, that name can be created and the
   * request gets a response. On success the new file holds the response body (a
   * body that fails part-way leaves what it delivered, as io.Copy's error is
   * ignored); on failure at most an empty temporary file is left behind.
   */
  ghost predicate PartFetched(p: Platform, t: Transport, parent: DownloadState, range: ByteRange,
                              occupied: iset<string>, listed: set<string>, denied: set<string>,
                              before: Files, after: Files, file: string, ok: bool)
    requires parent.downloadURL.Some?
  {
    var base := p.join(parent.saveDirectory, parent.saveFileName);
    var path := TempPath(base, NextFree(base, listed, 0));
    var r := PartResponse(p, t, parent.downloadURL.value, range);
    && (ok <==> PartSessionBuilds(p, occupied, parent) && path !in denied && r.Ok?)
    && (ok ==> file == path && path !in before && after == before[path := r.value.body])
    && (!ok ==> after == before || (path !in before && after == before[path := []]))
  }

  /**
   * One iteration of StartConcurrentDownload's loop: a part session built from the
   * parent's settings gets its own temporary file and requests `range`; its body
   * goes to that file (the goroutine, run in sequence) and the file is listed in
   * the parent. Any failure leaves the parent as it was.
   */
  method DownloadPart(d: Download, p: Platform, disk: Disk, t: Transport, range: ByteRange)
    returns (o: Outcome, file: string)
    requires d.downloadURL.Some?
    requires !disk.InUnstatableDir(p.join(d.saveDirectory, d.saveFileName))
    modifies d, disk
    ensures PartFetched(p, t, old(d.State()), range, old(disk.Occupied()), old(disk.Listed()), disk.denied,
                        old(disk.files), disk.files, file, o.Pass?)
    ensures o.Fail? ==> d.State() == old(d.State())
    ensures o.Pass? ==> d.State() == old(d.State()).(tempFileList := old(d.tempFileList) + [file])
  {
    o, file := FetchPart(d.State(), p, disk, t, range);
    if o.Pass? {
      AppendToTempFileList(d, file);
    }
  }

  /** The part session of DownloadPart, built from the parent's settings `parent`. */
  method FetchPart(parent: DownloadState, p: Platform, disk: Disk, t: Transport, range: ByteRange)
    returns (o: Outcome, file: string)
    requires parent.downloadURL.Some?
    requires PartSessionBuilds(p, disk.Occupied(), parent) ==>
             !disk.InUnstatableDir(p.join(parent.saveDirectory, parent.saveFileName))
    modifies disk
    ensures PartFetched(p, t, parent, range, old(disk.Occupied()), old(disk.Listed()), disk.denied,
                        old(disk.files), disk.files, file, o.Pass?)
  {
    file := "";
    PartSessionBuildsIff(p, disk.Occupied(), parent);
    var part, err := NewDownload(p, disk, PartOptions(parent));
    if err.Fail? {
      return err, file;
    }
    PartSessionShape(p, disk.Occupied(), parent);
    var created := CreateTemporaryFile(part, disk);
    if created.Err? {
      return Fail(created.message), file;
    }
    file := created.value;
    o := SendHTTPRequest(part, t, Some(RangeHeader(range)));
    if o.Fail? {
      return;
    }
    var _ := disk.WriteBody(file, part.response.value);
  }

  /**
   * StartConcurrentDownload: the parts are requested and listed, then the listed
   * files are merged into the save path. `requested` are the ranges requested and
   * `parts` the part files listed, one per range. For a session whose save path is
   * Join(directory, name) and whose list starts empty, a successful run whose parts
   * could all be read leaves the save file holding the parts' bodies in plan order,
   * removes every part and leaves every other file as it was.
   */
  method StartConcurrentDownload(d: Download, p: Platform, disk: Disk, t: Transport)
    returns (o: Outcome, ghost requested: seq<ByteRange>, ghost parts: seq<string>)
    requires d.response.Some? && d.downloadURL.Some?
    requires d.maxNrOfConcurrentConnection > 0 ==> !disk.InUnstatableDir(p.join(d.saveDirectory, d.saveFileName))
    modifies d, disk
    ensures var plan := Plan(old(d.response).value.contentLength, old(d.maxNrOfConcurrentConnection));
      && requested <= plan
      && (o.Pass? ==> requested == plan)
      && |parts| == |requested|
      && d.State() == old(d.State()).(tempFileList := old(d.tempFileList) + parts)
    ensures o.Pass? && old(d.tempFileList) == []
            && old(d.saveFullPath) == p.join(old(d.saveDirectory), old(d.saveFileName))
            && (forall j :: 0 <= j < |parts| ==> parts[j] !in disk.unreadable) ==>
      && d.saveFullPath in disk.files
      && disk.files[d.saveFullPath] == PartBodies(p, t, old(d.downloadURL).value, requested)
      && (forall j :: 0 <= j < |parts| ==> parts[j] !in disk.files)
      && (forall q :: q in old(disk.files) && q != d.saveFullPath ==>
            q in disk.files && disk.files[q] == old(disk.files)[q])
  {
    ghost var f0 := disk.files;
    o, requested, parts := RequestParts(d, p, disk, t);
    if o.Fail? {
      return;
    }
    o := MergeParts(d, p, disk, t, f0, parts, requested);
  }

  /**
   * The merge step of StartConcurrentDownload once RequestParts has left `parts`
   * on the disk whose files were `f0`: when the session lists exactly those parts
   * and saves to Join(directory, name), a merge that succeeds leaves the save file
   * holding their bodies, removes them and keeps every other old file.
   */
  method MergeParts(d: Download, p: Platform, disk: Disk, t: Transport, ghost f0: Files,
                    ghost parts: seq<string>, ghost requested: seq<ByteRange>) returns (o: Outcome)
    requires d.downloadURL.Some?
    requires PartsOnDisk(p, t, d.downloadURL.value, p.join(d.saveDirectory, d.saveFileName), f0, disk.files,
                         parts, requested)
    modifies disk
    ensures o.Pass? && d.tempFileList == parts && d.saveFullPath == p.join(d.saveDirectory, d.saveFileName)
            && (forall j :: 0 <= j < |parts| ==> parts[j] !in disk.unreadable) ==>
      && d.saveFullPath in disk.files
      && disk.files[d.saveFullPath] == PartBodies(p, t, d.downloadURL.value, requested)
      && (forall j :: 0 <= j < |parts| ==> parts[j] !in disk.files)
      && (forall q :: q in f0 && q != d.saveFullPath ==> q in disk.files && disk.files[q] == f0[q])
  {
    ghost var f1 := disk.files;
    o := MergeTempFiles(d, disk);
    if o.Pass? && d.tempFileList == parts && d.saveFullPath == p.join(d.saveDirectory, d.saveFileName)
       && (forall j :: 0 <= j < |parts| ==> parts[j] !in disk.unreadable) {
      MergedParts(disk, f0, f1, d.saveFullPath, parts, p, t, d.downloadURL.value, requested);
    }
  }

  /**
   * The merge step of StartConcurrentDownload on the files `f1` that RequestParts
   * left: the save path `target` ends up with the parts' bodies in order.
   */
  lemma MergedParts(disk: Disk, f0: Files, f1: Files, target: string, parts: seq<string>,
                    p: Platform, t: Transport, url: Url, requested: seq<ByteRange>)
    requires PartsOnDisk(p, t, url, target, f0, f1, parts, requested)
    requires forall j :: 0 <= j < |parts| ==> parts[j] !in disk.unreadable
    requires MergeRest(disk, f1[target := []], target, parts).Some?
    ensures var r := MergeRest(disk, f1[target := []], target, parts).value;
      && target in r
      && r[target] == PartBodies(p, t, url, requested)
      && (forall j :: 0 <= j < |parts| ==> parts[j] !in r)
      && (forall q :: q in f0 && q != target ==> q in r && r[q] == f0[q])
  {
    var start := f1[target := []];
    MergeSomeNotDenied(disk, start, target, parts);
    forall v | v in parts ensures v !in disk.denied && v !in disk.unreadable && v in start && v != target {
      var j :| 0 <= j < |parts| && parts[j] == v;
    }
    MergeReassembles(disk, start, target, parts);
    ContentsFrame(start, f1, parts);
    ContentsOfParts(f1, parts, p, t, url, requested);
    var r := MergeRest(disk, start, target, parts).value;
    forall q | q in f0 && q != target ensures q in r && r[q] == f0[q] {
      assert q !in parts;
    }
  }

  /** The listed part files hold the bodies of their ranges, so together they hold PartBodies. */
  lemma {:induction false} ContentsOfParts(files: Files, parts: seq<string>,
                                           p: Platform, t: Transport, url: Url, ranges: seq<ByteRange>)
    requires |parts| == |ranges| && AllIn(files, parts)
    requires forall j :: 0 <= j < |parts| ==>
      PartResponse(p, t, url, ranges[j]).Ok? && files[parts[j]] == PartResponse(p, t, url, ranges[j]).value.body
    ensures Contents(files, parts) == PartBodies(p, t, url, ranges)
    decreases |parts|
  {
    if parts != [] {
      assert forall j :: 0 <= j < |parts| - 1 ==> parts[1..][j] == parts[j + 1] && ranges[1..][j] == ranges[j + 1];
      ContentsOfParts(files, parts[1..], p, t, url, ranges[1..]);
    }
  }

  /** A server that answers every in-bounds range request for `src` with exactly those bytes. */
  ghost predicate Serves(p: Platform, t: Transport, url: Url, src: seq<Byte>)
  {
    forall r: ByteRange :: 0 <= r.start <= r.end + 1 <= |src| ==>
      PartResponse(p, t, url, r).Ok? && PartResponse(p, t, url, r).value.body == src[r.start..r.end + 1]
  }

  /**
   * Contiguous ranges that never run backwards, from byte a to byte b - 1 of `src`,
   * fetched from a server that serves `src`, give back src[a..b].
   */
  lemma {:induction false} ServedRangesJoin(p: Platform, t: Transport, url: Url, src: seq<Byte>, rs: seq<ByteRange>)
    requires Serves(p, t, url, src)
    requires |rs| >= 1 && Contiguous(rs) && NonNegative(rs)
    requires 0 <= rs[0].start && rs[|rs| - 1].end < |src|
    ensures rs[0].start <= rs[|rs| - 1].end + 1
    ensures PartBodies(p, t, url, rs) == src[rs[0].start..rs[|rs| - 1].end + 1]
    decreases |rs|
  {
    ContiguousSpan(rs);
    var r0 := rs[0];
    if |rs| == 1 {
      ServedRange(p, t, url, src, r0);
      BodiesJoin(p, t, url, src, rs, r0.start, r0.end + 1, r0.end + 1);
    } else {
      var rest := rs[1..];
      ContiguousTail(rs);
      assert rest[0].start == r0.end + 1;
      assert rest[|rest| - 1] == rs[|rs| - 1];
      ServedRangesJoin(p, t, url, src, rest);
      ServedRange(p, t, url, src, r0);
      BodiesJoin(p, t, url, src, rs, r0.start, r0.end + 1, rs[|rs| - 1].end + 1);
    }
  }

  /** One in-bounds range fetched from a server that serves `src`. */
  lemma ServedRange(p: Platform, t: Transport, url: Url, src: seq<Byte>, r: ByteRange)
    requires Serves(p, t, url, src) && 0 <= r.start <= r.end + 1 <= |src|
    ensures PartResponse(p, t, url, r).Ok? && PartResponse(p, t, url, r).value.body == src[r.start..r.end + 1]
  {
  }

  /** The first range's body followed by the rest's bodies, when they are adjacent slices of `src`. */
  lemma BodiesJoin(p: Platform, t: Transport, url: Url, src: seq<Byte>, rs: seq<ByteRange>, a: int, m: int, b: int)
    requires |rs| >= 1 && 0 <= a <= m <= b <= |src|
    requires PartResponse(p, t, url, rs[0]).Ok? && PartResponse(p, t, url, rs[0]).value.body == src[a..m]
    requires PartBodies(p, t, url, rs[1..]) == src[m..b]
    ensures PartBodies(p, t, url, rs) == src[a..b]
  {
    assert PartBodies(p, t, url, rs) == src[a..m] + PartBodies(p, t, url, rs[1..]);
    assert src[a..m] + src[m..b] == src[a..b] by {
      SliceJoin(src, a, m, b);
    }
  }

  /** Adjacent slices of a sequence join into one. */
  lemma SliceJoin<T>(s: seq<T>, a: int, m: int, b: int)
    requires 0 <= a <= m <= b <= |s|
    ensures s[a..m] + s[m..b] == s[a..b]
  {
    assert forall i :: 0 <= i < b - a ==> (s[a..m] + s[m..b])[i] == s[a..b][i];
  }

  /**
   * Fetching the whole plan for a content of |src| bytes over n >= 1 connections
   * from a server that serves `src` gives back src, byte for byte and in order.
   */
  lemma PlanServed(p: Platform, t: Transport, url: Url, src: seq<Byte>, n: int)
    requires n >= 1 && Serves(p, t, url, src)
    ensures PartBodies(p, t, url, Plan(|src|, n)) == src
  {
    var rs := Plan(|src|, n);
    PlanTiles(|src|, n);
    if |src| == 0 {
      ServedRangesJoin(p, t, url, src, rs);
    } else {
      ServedRangesJoin(p, t, url, src, rs);
      assert src[0..|src|] == src;
    }
  }

  /**
   * The part files listed so far: distinct, absent from the files `f0` present
   * before the loop, never the parent's Join(directory, name) `base`, each holding
   * the body of its range; and every file of `f0` is as it was.
   */
  ghost predicate PartsOnDisk(p: Platform, t: Transport, url: Url, base: string, f0: Files, files: Files,
                              parts: seq<string>, requested: seq<ByteRange>)
  {
    && |parts| == |requested| && Distinct(parts)
    && (forall j :: 0 <= j < |parts| ==> parts[j] !in f0 && parts[j] != base)
    && (forall q :: q in f0 ==> q in files && files[q] == f0[q])
    && (forall j :: 0 <= j < |parts| ==>
          parts[j] in files && PartResponse(p, t, url, requested[j]).Ok?
          && files[parts[j]] == PartResponse(p, t, url, requested[j]).value.body)
  }

  /**
   * One part download keeps PartsOnDisk: a successful one adds its new file and
   * range, a failed one at most leaves an unlisted empty file behind.
   */
  lemma PartsOnDiskStep(p: Platform, t: Transport, parent: DownloadState, range: ByteRange,
                        occupied: iset<string>, listed: set<string>, denied: set<string>,
                        f0: Files, before: Files, after: Files,
                        parts: seq<string>, requested: seq<ByteRange>, file: string, ok: bool)
    requires parent.downloadURL.Some?
    requires forall q :: q in before ==> q in listed
    requires PartsOnDisk(p, t, parent.downloadURL.value, p.join(parent.saveDirectory, parent.saveFileName),
                         f0, before, parts, requested)
    requires before.Keys == f0.Keys + Elements(parts)
    requires PartFetched(p, t, parent, range, occupied, listed, denied, before, after, file, ok)
    ensures var url, base := parent.downloadURL.value, p.join(parent.saveDirectory, parent.saveFileName);
      && (ok ==> PartsOnDisk(p, t, url, base, f0, after, parts + [file], requested + [range])
                 && after.Keys == f0.Keys + Elements(parts + [file]))
      && (!ok ==> PartsOnDisk(p, t, url, base, f0, after, parts, requested))
  {
    var url, base := parent.downloadURL.value, p.join(parent.saveDirectory, parent.saveFileName);
    if ok {
      assert file !in before && |file| > |base|;
      PartsOnDiskAdd(p, t, url, base, f0, before, after, parts, requested, file, range);
    } else {
      PartsOnDiskKeep(p, t, url, base, f0, before, after, parts, requested);
    }
  }

  /** A new part file, neither listed nor `base`, holding its range's body extends PartsOnDisk. */
  lemma PartsOnDiskAdd(p: Platform, t: Transport, url: Url, base: string, f0: Files, before: Files, after: Files,
                       parts: seq<string>, requested: seq<ByteRange>, file: string, range: ByteRange)
    requires PartsOnDisk(p, t, url, base, f0, before, parts, requested)
    requires before.Keys == f0.Keys + Elements(parts)
    requires file !in before && file != base
    requires PartResponse(p, t, url, range).Ok? && after == before[file := PartResponse(p, t, url, range).value.body]
    ensures PartsOnDisk(p, t, url, base, f0, after, parts + [file], requested + [range])
    ensures after.Keys == f0.Keys + Elements(parts + [file])
  {
    var parts', requested' := parts + [file], requested + [range];
    forall j | 0 <= j < |parts'| ensures parts'[j] in after
      && PartResponse(p, t, url, requested'[j]).Ok?
      && after[parts'[j]] == PartResponse(p, t, url, requested'[j]).value.body
    {
      if j < |parts| {
        assert parts'[j] == parts[j] && requested'[j] == requested[j];
      }
    }
    DistinctAppend(parts, file, before);
  }

  /** Appending a file that is not yet on disk to distinct files on disk keeps them distinct. */
  lemma DistinctAppend(parts: seq<string>, file: string, before: Files)
    requires Distinct(parts) && (forall j :: 0 <= j < |parts| ==> parts[j] in before) && file !in before
    ensures Distinct(parts + [file]) && Elements(parts + [file]) == Elements(parts) + {file}
  {
    var parts' := parts + [file];
    forall i, j | 0 <= i < j < |parts'| ensures parts'[i] != parts'[j] {
      if j == |parts| {
        assert parts'[i] == parts[i] && parts[i] in before;
      } else {
        assert parts'[i] == parts[i] && parts'[j] == parts[j];
      }
    }
    assert Elements(parts') == Elements(parts) + {file};
  }

  /** A disk change that keeps every existing file as it was keeps PartsOnDisk. */
  lemma PartsOnDiskKeep(p: Platform, t: Transport, url: Url, base: string, f0: Files, before: Files, after: Files,
                        parts: seq<string>, requested: seq<ByteRange>)
    requires PartsOnDisk(p, t, url, base, f0, before, parts, requested)
    requires forall q :: q in before ==> q in after && after[q] == before[q]
    ensures PartsOnDisk(p, t, url, base, f0, after, parts, requested)
  {
  }

  /**
   * Where the loop of StartConcurrentDownload stands, for a parent whose state was
   * `s0` and a disk whose files were `f0` before it: the ranges requested so far
   * followed by the ranges of loop index i make up `plan`, the parent lists the
   * part files after its old list, and the part files are as PartsOnDisk says.
   */
  ghost predicate PartsProgress(p: Platform, t: Transport, s0: DownloadState, f0: Files, plan: seq<ByteRange>,
                                st: DownloadState, files: Files, currentByte: int, remaining: int, i: nat,
                                parts: seq<string>, requested: seq<ByteRange>)
    requires s0.downloadURL.Some?
  {
    && plan == requested + PlanFrom(currentByte, remaining, i)
    && |parts| == |requested|
    && st == s0.(tempFileList := s0.tempFileList + parts)
    && PartsOnDisk(p, t, s0.downloadURL.value, p.join(s0.saveDirectory, s0.saveFileName), f0, files, parts, requested)
  }

  /**
   * One iteration of the loop of StartConcurrentDownload at loop index i >= 1:
   * the next range takes BytesToGet bytes from `currentByte`; a part that fails
   * leaves the loop where it stands, a part that succeeds moves it on by one range
   * and one listed part file.
   */
  method RequestPart(d: Download, p: Platform, disk: Disk, t: Transport, currentByte: int, remaining: int, i: nat,
                     ghost s0: DownloadState, ghost f0: Files, ghost plan: seq<ByteRange>,
                     ghost parts: seq<string>, ghost requested: seq<ByteRange>)
    returns (o: Outcome, file: string, bytesToGet: int, range: ByteRange)
    requires i >= 1 && s0.downloadURL.Some?
    requires PartsProgress(p, t, s0, f0, plan, d.State(), disk.files, currentByte, remaining, i, parts, requested)
    requires disk.files.Keys == f0.Keys + Elements(parts)
    requires !disk.InUnstatableDir(p.join(s0.saveDirectory, s0.saveFileName))
    modifies d, disk
    ensures bytesToGet == BytesToGet(remaining, i)
    ensures o.Fail? ==>
      PartsProgress(p, t, s0, f0, plan, d.State(), disk.files, currentByte, remaining, i, parts, requested)
    ensures o.Pass? ==>
      && PartsProgress(p, t, s0, f0, plan, d.State(), disk.files, currentByte + bytesToGet, remaining - bytesToGet,
                       i - 1, parts + [file], requested + [range])
      && disk.files.Keys == f0.Keys + Elements(parts + [file])
  {
    bytesToGet := BytesToGet(remaining, i);
    range := ByteRange(currentByte, currentByte + (bytesToGet - 1));
    ghost var parent, before, occupied, listed := d.State(), disk.files, disk.Occupied(), disk.Listed();
    assert d.saveDirectory == s0.saveDirectory && d.saveFileName == s0.saveFileName;
    o, file := DownloadPart(d, p, disk, t, range);
    PartProgressStep(p, t, s0, f0, plan, parent, d.State(), range, occupied, listed, disk.denied, before, disk.files,
                     file, o.Pass?, currentByte, remaining, i, parts, requested);
  }

  /** The loop's bookkeeping across one DownloadPart, as RequestPart states it. */
  lemma PartProgressStep(p: Platform, t: Transport, s0: DownloadState, f0: Files, plan: seq<ByteRange>,
                         parent: DownloadState, st: DownloadState, range: ByteRange,
                         occupied: iset<string>, listed: set<string>, denied: set<string>, before: Files, after: Files,
                         file: string, ok: bool, currentByte: int, remaining: int, i: nat,
                         parts: seq<string>, requested: seq<ByteRange>)
    requires i >= 1 && s0.downloadURL.Some?
    requires PartsProgress(p, t, s0, f0, plan, parent, before, currentByte, remaining, i, parts, requested)
    requires before.Keys == f0.Keys + Elements(parts)
    requires forall q :: q in before ==> q in listed
    requires range == ByteRange(currentByte, currentByte + (BytesToGet(remaining, i) - 1))
    requires PartFetched(p, t, parent, range, occupied, listed, denied, before, after, file, ok)
    requires !ok ==> st == parent
    requires ok ==> st == parent.(tempFileList := parent.tempFileList + [file])
    ensures !ok ==> PartsProgress(p, t, s0, f0, plan, st, after, currentByte, remaining, i, parts, requested)
    ensures ok ==>
      && PartsProgress(p, t, s0, f0, plan, st, after, currentByte + BytesToGet(remaining, i),
                       remaining - BytesToGet(remaining, i), i - 1, parts + [file], requested + [range])
      && after.Keys == f0.Keys + Elements(parts + [file])
  {
    PlanAdvance(plan, requested, currentByte, remaining, i);
    PartsOnDiskStep(p, t, parent, range, occupied, listed, denied, f0, before, after, parts, requested, file, ok);
    if ok {
      ListedStep(s0, parent, st, parts, file);
    }
  }

  /** Listing one more part file after `parts` lists `parts + [file]` after the old list. */
  lemma ListedStep(s0: DownloadState, parent: DownloadState, st: DownloadState, parts: seq<string>, file: string)
    requires parent == s0.(tempFileList := s0.tempFileList + parts)
    requires st == parent.(tempFileList := parent.tempFileList + [file])
    ensures st == s0.(tempFileList := s0.tempFileList + (parts + [file]))
  {
    assert s0.tempFileList + (parts + [file]) == (s0.tempFileList + parts) + [file];
  }

  /**
   * The loop of StartConcurrentDownload: for i from the connection count down to
   * 1, a part session requests the next byte range (all remaining bytes when
   * i = 1), its body goes to its own new temporary file, and that file is listed
   * in the parent. The first failure ends the loop. The part files are distinct,
   * new, never the parent's Join(directory, name), and each holds the body of its
   * range; no file that existed before changes.
   */
  method RequestParts(d: Download, p: Platform, disk: Disk, t: Transport)
    returns (o: Outcome, ghost requested: seq<ByteRange>, ghost parts: seq<string>)
    requires d.response.Some? && d.downloadURL.Some?
    requires d.maxNrOfConcurrentConnection > 0 ==> !disk.InUnstatableDir(p.join(d.saveDirectory, d.saveFileName))
    modifies d, disk
    ensures var plan := Plan(old(d.response).value.contentLength, old(d.maxNrOfConcurrentConnection));
      && requested <= plan
      && (o.Pass? ==> requested == plan)
      && |parts| == |requested|
      && d.State() == old(d.State()).(tempFileList := old(d.tempFileList) + parts)
    ensures PartsOnDisk(p, t, old(d.downloadURL).value, p.join(old(d.saveDirectory), old(d.saveFileName)),
                        old(disk.files), disk.files, parts, requested)
    ensures o.Pass? ==> disk.files.Keys == old(disk.files).Keys + Elements(parts)
  {
    ghost var s0 := d.State();
    ghost var f0 := disk.files;
    requested, parts := [], [];
    var n := d.maxNrOfConcurrentConnection;
    if n <= 0 {
      // the loop runs no iteration
      return Pass, requested, parts;
    }
    assert !disk.InUnstatableDir(p.join(s0.saveDirectory, s0.saveFileName));
    var contentLength := d.response.value.contentLength;
    ghost var plan := Plan(contentLength, n);
    var currentByte := 0;
    var i: nat := n;
    while i > 0
      invariant PartsProgress(p, t, s0, f0, plan, d.State(), disk.files, currentByte, contentLength, i, parts, requested)
      invariant disk.files.Keys == f0.Keys + Elements(parts)
    {
      var sent, file, bytesToGet, range := RequestPart(d, p, disk, t, currentByte, contentLength, i,
                                                       s0, f0, plan, parts, requested);
      if sent.Fail? {
        return sent, requested, parts;
      }
      requested := requested + [range];
      contentLength := contentLength - bytesToGet;
      currentByte := currentByte + bytesToGet;
      parts := parts + [file];
      i := i - 1;
    }
    o := Pass;
  }

  /**
   * Download (download.go): refused once started; otherwise marks the session
   * started and takes the concurrent path exactly when ranges are allowed and more
   * than one connection is configured, else the single-connection path.
   */
  method Download(d: Download, p: Platform, disk: Disk, t: Transport) returns (o: Outcome, ghost concurrent: bool)
    requires !d.isDownloadStarted ==> d.response.Some?
    requires !d.isDownloadStarted && d.isConcurrentConnectionAllowed == Allowed && d.maxNrOfConcurrentConnection > 1
             ==> d.downloadURL.Some? && !disk.InUnstatableDir(p.join(d.saveDirectory, d.saveFileName))
    requires !d.isDownloadStarted && !(d.isConcurrentConnectionAllowed == Allowed && d.maxNrOfConcurrentConnection > 1)
             ==> !disk.InUnstatableDir(d.saveFullPath)
    modifies d, disk
    ensures old(d.isDownloadStarted) ==>
      o == Fail(AlreadyStarted)
      && d.State() == old(d.State()) && disk.files == old(disk.files)
    ensures !old(d.isDownloadStarted) ==>
      && d.isDownloadStarted
      && (concurrent <==> old(d.isConcurrentConnectionAllowed) == Allowed && old(d.maxNrOfConcurrentConnection) > 1)
  {
    concurrent := false;
    if d.isDownloadStarted {
      return Fail(AlreadyStarted), concurrent;
    }
    var _ := d.SetIsDownloadStarted(true);
    if d.isConcurrentConnectionAllowed == Allowed && d.maxNrOfConcurrentConnection > 1 {
      concurrent := true;
      ghost var requested, parts;
      o, requested, parts := StartConcurrentDownload(d, p, disk, t);
      return;
    }
    o := StartAtomicDownload(d, disk);
  }

  /** Pause (download.go): does nothing yet and reports success. */
  method Pause(d: Download) returns (o: Outcome)
    ensures o == Pass
  {
    o := Pass;
  }

  /** Resume (download.go): does nothing yet and reports success. */
  method Resume(d: Download) returns (o: Outcome)
    ensures o == Pass
  {
    o := Pass;
  }

  /** Abort (download.go): does nothing yet and reports success. */
  method Abort(d: Download) returns (o: Outcome)
    ensures o == Pass
  {
    o := Pass;
  }
}
