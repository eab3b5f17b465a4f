/**
 * The download manager of the internal downloadManager package
 * (downloadManager/downloadManagerModel.go): its fields, the validating setters,
 * setSaveFullPath, and the plain field setters.
 */
module DmModel {
  import opened Common
  import opened Environment

  /** The largest number of concurrent downloads a manager accepts. */
  const MaxNrOfConcurrentDownload: int := 64

  /** The error setSaveFullPath reports when joining gives the empty path. */
  const JoinFailed: string := "error in combining save directory and file path"

  /** Go's `type FeatureStatus int`: any integer is a value, three of them are named. */
  newtype FeatureStatus = int

  const Unknown: FeatureStatus := 0
  const Allowed: FeatureStatus := 1
  const NotAllowed: FeatureStatus := 2

  /** A snapshot of every field of a manager (ctx and ctxCancel are one field here). */
  datatype ManagerState = ManagerState(
    downloadUrl: Option<Url>,
    nrOfConcurrentDownload: int,
    saveDirectory: string,
    saveFileName: string,
    saveFullPath: string,
    ctx: ContextState,
    response: Option<Response>,
    fileSize: int,
    isPausedAllowed: FeatureStatus,
    isConcurrentAllowed: FeatureStatus,
    tempAppender: int,
    tempFileLists: seq<string>,
    isDownloadStarted: bool,
    isDownloadRunning: bool,
    isDownloadComplete: bool)

  /** The zero value `&DownloadManager{}`. */
  const ZeroManager: ManagerState :=
    ManagerState(None, 0, "", "", "", NoContext, None, 0, Unknown, Unknown, 0, [], false, false, false)

  /** The error for an empty download URL. */
  const UrlEmpty: string := "download URL is empty"

  /** The error for an empty save directory. */
  const DirectoryEmpty: string := "save directory cannot be empty"

  /** The error for a save directory that does not exist. */
  const DirectoryMissing: string := "the given save directory does not exists"

  /** The error for an empty file name. */
  const FileNameEmpty: string := "file name cannot be empty"

  /** The error for a file name holding '/'. */
  const SlashInFileName: string := "forward slash '/' is not allowed in file name"

  /** The error for a file name that already exists. */
  const FileNameTaken: string := "the given file name to save already exists"

  /** The error for a download count above the maximum. */
  const AboveMaximum: string :=
    "number of concurrent download given exceeded maximum allowed (" + MaxCountText + ")"

  /** The error for a download count below 1. */
  const BelowOne: string :=
    "number of concurrent download given is less than 1"

  /** What SetDownloadUrl accepts: a non-empty text that url.Parse accepts. */
  function CheckDownloadUrl(p: Platform, downloadUrl: string): (r: Result<Url>)
    ensures downloadUrl == "" ==> r == Err(UrlEmpty)
    ensures downloadUrl != "" ==> r == p.parseUrl(downloadUrl)
  {
    if |downloadUrl| == 0 then Err(UrlEmpty) else p.parseUrl(downloadUrl)
  }

  /** What SetNrOfConcurrentDownload accepts: exactly the counts 1 to 64. */
  function CheckNrOfConcurrentDownload(n: int): (o: Outcome)
    ensures o.Pass? <==> 1 <= n <= MaxNrOfConcurrentDownload
  {
    if n > MaxNrOfConcurrentDownload then
      Fail(AboveMaximum)
    else if n < 1 then
      Fail(BelowOne)
    else Pass
  }

  /**
   * The directory SetSaveDirectory stores: the trimmed and cleaned input, when the
   * input is non-empty (checked before trimming) and the cleaned path exists.
   */
  function CheckSaveDirectory(p: Platform, occupied: iset<string>, saveDirectory: string): (r: Result<string>)
    ensures r.Ok? <==> saveDirectory != "" && p.clean(p.trimSpace(saveDirectory)) in occupied
    ensures r.Ok? ==> r.value == p.clean(p.trimSpace(saveDirectory))
  {
    if |saveDirectory| == 0 then Err(DirectoryEmpty)
    else
      var cleaned := p.clean(p.trimSpace(saveDirectory));
      if cleaned !in occupied then Err(DirectoryMissing)
      else Ok(cleaned)
  }

  /**
   * The name SetSaveFileName stores: the cleaned input, when the input is non-empty,
   * the cleaned name has no '/', and no file of that name exists.
   */
  function CheckSaveFileName(p: Platform, occupied: iset<string>, saveFileName: string): (r: Result<string>)
    ensures r.Ok? <==> saveFileName != "" && '/' !in p.clean(saveFileName) && p.clean(saveFileName) !in occupied
    ensures r.Ok? ==> r.value == p.clean(saveFileName)
    ensures saveFileName == "" ==> r == Err(FileNameEmpty)
    ensures saveFileName != "" && '/' in p.clean(saveFileName) ==> r == Err(SlashInFileName)
  {
    if |saveFileName| == 0 then Err(FileNameEmpty)
    else
      var cleaned := p.clean(saveFileName);
      if '/' in cleaned then Err(SlashInFileName)
      else if cleaned in occupied then Err(FileNameTaken)
      else Ok(cleaned)
  }

  /** A download manager; each field as in the Go struct. */
  class DownloadManager {
    var downloadUrl: Option<Url>
    var nrOfConcurrentDownload: int
    var saveDirectory: string
    var saveFileName: string
    var saveFullPath: string
    var ctx: ContextState
    var response: Option<Response>
    var fileSize: int
    var isPausedAllowed: FeatureStatus
    var isConcurrentAllowed: FeatureStatus
    var tempAppender: int
    var tempFileLists: seq<string>
    var isDownloadStarted: bool
    var isDownloadRunning: bool
    var isDownloadComplete: bool

    function State(): ManagerState
      reads this
    {
      ManagerState(downloadUrl, nrOfConcurrentDownload, saveDirectory, saveFileName, saveFullPath,
                   ctx, response, fileSize, isPausedAllowed, isConcurrentAllowed, tempAppender,
                   tempFileLists, isDownloadStarted, isDownloadRunning, isDownloadComplete)
    }

    /** `&DownloadManager{}`: every field at its zero value. */
    constructor ()
      ensures State() == ZeroManager
    {
      downloadUrl, nrOfConcurrentDownload := None, 0;
      saveDirectory, saveFileName, saveFullPath := "", "", "";
      ctx, response, fileSize := NoContext, None, 0;
      isPausedAllowed, isConcurrentAllowed := Unknown, Unknown;
      tempAppender, tempFileLists := 0, [];
      isDownloadStarted, isDownloadRunning, isDownloadComplete := false, false, false;
    }

    method SetDownloadUrl(p: Platform, downloadUrl0: string) returns (o: Outcome)
      modifies this
      ensures var r := CheckDownloadUrl(p, downloadUrl0);
        && (o.Pass? <==> r.Ok?)
        && (r.Err? ==> o == Fail(r.message) && State() == old(State()))
        && (r.Ok? ==> State() == old(State()).(downloadUrl := Some(r.value)))
    {
      var r := CheckDownloadUrl(p, downloadUrl0);
      if r.Err? {
        return Fail(r.message);
      }
      downloadUrl := Some(r.value);
      o := Pass;
    }

    method SetNrOfConcurrentDownload(n: int) returns (o: Outcome)
      modifies this
      ensures o == CheckNrOfConcurrentDownload(n)
      ensures State() == if o.Pass? then old(State()).(nrOfConcurrentDownload := n) else old(State())
    {
      o := CheckNrOfConcurrentDownload(n);
      if o.Pass? {
        nrOfConcurrentDownload := n;
      }
    }

    /** Stores the trimmed and cleaned directory. */
    method SetSaveDirectory(p: Platform, disk: Disk, saveDirectory0: string) returns (o: Outcome)
      modifies this
      ensures var r := CheckSaveDirectory(p, disk.Occupied(), saveDirectory0);
        && (o.Pass? <==> r.Ok?)
        && (r.Err? ==> o == Fail(r.message))
        && State() == if r.Ok? then old(State()).(saveDirectory := r.value) else old(State())
    {
      if |saveDirectory0| == 0 {
        return Fail(DirectoryEmpty);
      }
      var cleaned := p.clean(p.trimSpace(saveDirectory0));
      if !disk.IsFileExist(cleaned) {
        return Fail(DirectoryMissing);
      }
      saveDirectory := cleaned;
      o := Pass;
    }

    /** Stores the cleaned name. */
    method SetSaveFileName(p: Platform, disk: Disk, saveFileName0: string) returns (o: Outcome)
      modifies this
      ensures var r := CheckSaveFileName(p, disk.Occupied(), saveFileName0);
        && (o.Pass? <==> r.Ok?)
        && (r.Err? ==> o == Fail(r.message))
        && State() == if r.Ok? then old(State()).(saveFileName := r.value) else old(State())
    {
      if |saveFileName0| == 0 {
        return Fail(FileNameEmpty);
      }
      var cleaned := p.clean(saveFileName0);
      if '/' in cleaned {
        return Fail(SlashInFileName);
      }
      if disk.IsFileExist(cleaned) {
        return Fail(FileNameTaken);
      }
      saveFileName := cleaned;
      o := Pass;
    }

    /** setSaveFullPath: stores the joined path, and fails exactly when it is empty. */
    method SetSaveFullPath(p: Platform) returns (o: Outcome)
      modifies this
      ensures State() == old(State()).(saveFullPath := p.join(old(saveDirectory), old(saveFileName)))
      ensures o == if saveFullPath != "" then Pass else Fail(JoinFailed)
    {
      saveFullPath := p.join(saveDirectory, saveFileName);
      if |saveFullPath| <= 0 {
        return Fail(JoinFailed);
      }
      o := Pass;
    }

    /** setCtx and setCtxCancel together: the context and its cancel function. */
    method SetCtx(c: ContextState) returns (o: Outcome)
      modifies this
      ensures o == Pass && State() == old(State()).(ctx := c)
    {
      ctx := c;
      o := Pass;
    }

    method SetResponse(r: Option<Response>) returns (o: Outcome)
      modifies this
      ensures o == Pass && State() == old(State()).(response := r)
    {
      response := r;
      o := Pass;
    }

    method SetFileSize(fileSize0: int) returns (o: Outcome)
      modifies this
      ensures o == Pass && State() == old(State()).(fileSize := fileSize0)
    {
      fileSize := fileSize0;
      o := Pass;
    }

    method SetIsPausedAllowed(f: FeatureStatus) returns (o: Outcome)
      modifies this
      ensures o == Pass && State() == old(State()).(isPausedAllowed := f)
    {
      isPausedAllowed := f;
      o := Pass;
    }

    method SetIsConcurrentAllowed(f: FeatureStatus) returns (o: Outcome)
      modifies this
      ensures o == Pass && State() == old(State()).(isConcurrentAllowed := f)
    {
      isConcurrentAllowed := f;
      o := Pass;
    }

    /** incrementTempAppender: the counter goes up by exactly one. */
    method IncrementTempAppender() returns (o: Outcome)
      modifies this
      ensures o == Pass && State() == old(State()).(tempAppender := old(tempAppender) + 1)
    {
      tempAppender := tempAppender + 1;
      o := Pass;
    }

    /** setTempFileList: despite its name, appends one path and keeps the earlier ones. */
    method SetTempFileList(tempFileName: string) returns (o: Outcome)
      modifies this
      ensures o == Pass && State() == old(State()).(tempFileLists := old(tempFileLists) + [tempFileName])
    {
      tempFileLists := tempFileLists + [tempFileName];
      o := Pass;
    }

    method SetIsDownloadStarted(b: bool) returns (o: Outcome)
      modifies this
      ensures o == Pass && State() == old(State()).(isDownloadStarted := b)
    {
      isDownloadStarted := b;
      o := Pass;
    }

    method SetIsDownloadRunning(b: bool) returns (o: Outcome)
      modifies this
      ensures o == Pass && State() == old(State()).(isDownloadRunning := b)
    {
      isDownloadRunning := b;
      o := Pass;
    }

    method SetIsDownloadComplete(b: bool) returns (o: Outcome)
      modifies this
      ensures o == Pass && State() == old(State()).(isDownloadComplete := b)
    {
      isDownloadComplete := b;
      o := Pass;
    }
  }
}
