/**
 * The download session of the manager package (manager/model.go): its fields, the
 * validating setters and the plain field setters.
 */
module ManagerModel {
  import opened Common
  import opened Environment
  import opened FlagStates

  /** The largest number of concurrent connections a session accepts. */
  const MaxNrOfConcurrentConnectionAllowed: int := 64

  /** The error setSaveFullPath reports when joining gives the empty path. */
  const JoinFailed: string := "error in combining save directory and save file path"

  /** A snapshot of every field of a session. */
  datatype DownloadState = DownloadState(
    downloadURL: Option<Url>,
    maxNrOfConcurrentConnection: int,
    saveDirectory: string,
    saveFullPath: string,
    saveFileName: string,
    defaultFileName: string,
    isPausedAllowed: FlagState,
    isConcurrentConnectionAllowed: FlagState,
    isDownloadInitialized: bool,
    isDownloadStarted: bool,
    isDownloadRunning: bool,
    isDownloadCompleted: bool,
    isDownloadAborted: bool,
    tempFileNameAppender: int,
    tempFileList: seq<string>,
    response: Option<Response>,
    fileSize: int,
    ctx: ContextState)

  /** The zero value `&Download{}`. */
  const ZeroDownload: DownloadState :=
    DownloadState(None, 0, "", "", "", "", Unknown, Unknown,
                  false, false, false, false, false, 0, [], None, 0, NoContext)

  /** What SetDownloadURL accepts: a non-empty text that url.Parse accepts. */
  function CheckDownloadURL(p: Platform, downloadUrl: string): (r: Result<Url>)
    ensures downloadUrl == "" ==> r == Err(UrlEmpty)
    ensures downloadUrl != "" ==> r == p.parseUrl(downloadUrl)
  {
    if |downloadUrl| == 0 then Err(UrlEmpty) else p.parseUrl(downloadUrl)
  }

  /** The error for an empty download URL. */
  const UrlEmpty: string := "download URL is empty"

  /** The error for an empty save directory. */
  const DirectoryEmpty: string := "save directory cannot be empty"

  /** The error for a save directory that does not exist. */
  const DirectoryMissing: string := "the given save directory does not exists"

  /** The error for an empty file name. */
  const FileNameEmpty: string := "file name cannot be empty"

  /** The error for a file name holding '/'. */
  const SlashInFileName: string := "forward slash '/' is not allowed in file name"

  /** The error when neither a save nor a default file name is set. */
  const NoSaveFileName: string := "save file name not set"

  /** The error InitializeDownload returns while the download runs. */
  const CurrentlyRunning: string := "download is currently running"

  /** The error for a connection count above the maximum. */
  const AboveMaximum: string :=
    "number of concurrent connection given exceeded maximum allowed (" + MaxCountText + ")"

  /** The error for a connection count below 1. */
  const BelowOne: string :=
    "number of concurrent connection given is less than 1"

  /** The error Download returns once the download has started. */
  const AlreadyStarted: string :=
    "download has already started before. Did you mean resume download "

  /** What SetMaxNrOfConcurrentConnection accepts: exactly the counts 1 to 64. */
  function CheckMaxNrOfConcurrentConnection(n: int): (o: Outcome)
    ensures o.Pass? <==> 1 <= n <= MaxNrOfConcurrentConnectionAllowed
  {
    if n > MaxNrOfConcurrentConnectionAllowed then
      Fail(AboveMaximum)
    else if n < 1 then
      Fail(BelowOne)
    else Pass
  }

  /**
   * What SetSaveDirectory accepts: a non-empty directory whose trimmed and cleaned
   * form exists (util/file/file.go IsCleanedFileExist); `occupied` holds the paths
   * that exist.
   */
  function CheckSaveDirectory(p: Platform, occupied: iset<string>, directory: string): (o: Outcome)
    ensures o.Pass? <==> directory != "" && p.clean(p.trimSpace(directory)) in occupied
  {
    if |directory| == 0 then Fail(DirectoryEmpty)
    else if p.clean(p.trimSpace(directory)) !in occupied then Fail(DirectoryMissing)
    else Pass
  }

  /**
   * What setFileName stores: the cleaned name, when the name is non-empty and its
   * cleaned form has no '/'.
   */
  function CleanFileName(p: Platform, fileName: string): (r: Result<string>)
    ensures r.Ok? <==> fileName != "" && '/' !in p.clean(fileName)
    ensures r.Ok? ==> r.value == p.clean(fileName)
  {
    if |fileName| == 0 then Err(FileNameEmpty)
    else if '/' in p.clean(fileName) then Err(SlashInFileName)
    else Ok(p.clean(fileName))
  }

  /** The name setSaveFullPath joins: the save file name, else the default one. */
  function ChooseSaveFileName(saveFileName: string, defaultFileName: string): (r: Result<string>)
    ensures r.Err? <==> saveFileName == "" && defaultFileName == ""
    ensures r.Err? ==> r.message == NoSaveFileName
    ensures r.Ok? ==> r.value != ""
    ensures r.Ok? && saveFileName != "" ==> r.value == saveFileName
    ensures r.Ok? && saveFileName == "" ==> r.value == defaultFileName
  {
    if saveFileName != "" then Ok(saveFileName)
    else if defaultFileName != "" then Ok(defaultFileName)
    else Err(NoSaveFileName)
  }

  /** A download session; each field as in the Go struct. */
  class Download {
    var downloadURL: Option<Url>
    var maxNrOfConcurrentConnection: int
    var saveDirectory: string
    var saveFullPath: string
    var saveFileName: string
    var defaultFileName: string
    var isPausedAllowed: FlagState
    var isConcurrentConnectionAllowed: FlagState
    var isDownloadInitialized: bool
    var isDownloadStarted: bool
    var isDownloadRunning: bool
    var isDownloadCompleted: bool
    var isDownloadAborted: bool
    var tempFileNameAppender: int
    var tempFileList: seq<string>
    var response: Option<Response>
    var fileSize: int
    var ctx: ContextState

    function State(): DownloadState
      reads this
    {
      DownloadState(downloadURL, maxNrOfConcurrentConnection, saveDirectory, saveFullPath,
                    saveFileName, defaultFileName, isPausedAllowed, isConcurrentConnectionAllowed,
                    isDownloadInitialized, isDownloadStarted, isDownloadRunning, isDownloadCompleted,
                    isDownloadAborted, tempFileNameAppender, tempFileList, response, fileSize, ctx)
    }

    /** `&Download{}`: every field at its zero value. */
    constructor ()
      ensures State() == ZeroDownload
    {
      downloadURL, maxNrOfConcurrentConnection := None, 0;
      saveDirectory, saveFullPath, saveFileName, defaultFileName := "", "", "", "";
      isPausedAllowed, isConcurrentConnectionAllowed := Unknown, Unknown;
      isDownloadInitialized, isDownloadStarted, isDownloadRunning := false, false, false;
      isDownloadCompleted, isDownloadAborted := false, false;
      tempFileNameAppender, tempFileList := 0, [];
      response, fileSize, ctx := None, 0, NoContext;
    }

    /** DownloadURL(): the text of the parsed URL (dereferencing it: it must be set). */
    function DownloadURLText(): string
      reads this
      requires downloadURL.Some?
    {
      downloadURL.value.text
    }

    method SetDownloadURL(p: Platform, downloadUrl: string) returns (o: Outcome)
      modifies this
      ensures var r := CheckDownloadURL(p, downloadUrl);
        && (o.Pass? <==> r.Ok?)
        && (r.Err? ==> o == Fail(r.message) && State() == old(State()))
        && (r.Ok? ==> State() == old(State()).(downloadURL := Some(r.value)))
    {
      var r := CheckDownloadURL(p, downloadUrl);
      if r.Err? {
        return Fail(r.message);
      }
      downloadURL := Some(r.value);
      o := Pass;
    }

    method SetMaxNrOfConcurrentConnection(n: int) returns (o: Outcome)
      modifies this
      ensures o == CheckMaxNrOfConcurrentConnection(n)
      ensures State() == if o.Pass? then old(State()).(maxNrOfConcurrentConnection := n) else old(State())
    {
      o := CheckMaxNrOfConcurrentConnection(n);
      if o.Pass? {
        maxNrOfConcurrentConnection := n;
      }
    }

    /** Stores the directory as given, not in its cleaned form. */
    method SetSaveDirectory(p: Platform, disk: Disk, directory: string) returns (o: Outcome)
      modifies this
      ensures o == CheckSaveDirectory(p, disk.Occupied(), directory)
      ensures State() == if o.Pass? then old(State()).(saveDirectory := directory) else old(State())
    {
      if |directory| == 0 {
        return Fail(DirectoryEmpty);
      }
      if !disk.IsFileExist(p.clean(p.trimSpace(directory))) {
        return Fail(DirectoryMissing);
      }
      saveDirectory := directory;
      o := Pass;
    }

    /** setFileName: stores the cleaned name in saveFileName. */
    method SetFileName(p: Platform, fileName: string) returns (o: Outcome)
      modifies this
      ensures var r := CleanFileName(p, fileName);
        && (o.Pass? <==> r.Ok?)
        && (r.Err? ==> o == Fail(r.message))
        && State() == if r.Ok? then old(State()).(saveFileName := r.value) else old(State())
    {
      if |fileName| == 0 {
        return Fail(FileNameEmpty);
      }
      var cleaned := p.clean(fileName);
      if '/' in cleaned {
        return Fail(SlashInFileName);
      }
      saveFileName := cleaned;
      o := Pass;
    }

    /** Validates through setFileName, then stores the name as given, not cleaned. */
    method SetSaveFileName(p: Platform, fileName: string) returns (o: Outcome)
      modifies this
      ensures var r := CleanFileName(p, fileName);
        && (o.Pass? <==> r.Ok?)
        && (r.Err? ==> o == Fail(r.message))
        && State() == if r.Ok? then old(State()).(saveFileName := fileName) else old(State())
    {
      o := SetFileName(p, fileName);
      if o.Fail? {
        return;
      }
      saveFileName := fileName;
    }

    /**
     * setDefaultFileName: stores the name as given in defaultFileName and, through
     * setFileName, its cleaned form in saveFileName.
     */
    method SetDefaultFileName(p: Platform, fileName: string) returns (o: Outcome)
      modifies this
      ensures var r := CleanFileName(p, fileName);
        && (o.Pass? <==> r.Ok?)
        && (r.Err? ==> o == Fail(r.message))
        && State() == if r.Ok? then old(State()).(saveFileName := r.value, defaultFileName := fileName)
                      else old(State())
    {
      o := SetFileName(p, fileName);
      if o.Fail? {
        return;
      }
      defaultFileName := fileName;
    }

    /**
     * setSaveFullPath: joins the directory with the save file name, or else the
     * default file name; the joined path is stored even when it is empty and the
     * call then fails.
     */
    method SetSaveFullPath(p: Platform) returns (o: Outcome)
      modifies this
      ensures var c := ChooseSaveFileName(old(saveFileName), old(defaultFileName));
        && (c.Err? ==> o == Fail(c.message) && State() == old(State()))
        && (c.Ok? ==> State() == old(State()).(saveFullPath := p.join(old(saveDirectory), c.value)))
        && (c.Ok? ==> o == if saveFullPath != "" then Pass else Fail(JoinFailed))
    {
      var name := ChooseSaveFileName(saveFileName, defaultFileName);
      if name.Err? {
        return Fail(name.message);
      }
      saveFullPath := p.join(saveDirectory, name.value);
      if |saveFullPath| <= 0 {
        return Fail(JoinFailed);
      }
      o := Pass;
    }

    method SetFileSize(fileSize0: int) returns (o: Outcome)
      modifies this
      ensures o == Pass && State() == old(State()).(fileSize := fileSize0)
    {
      fileSize := fileSize0;
      o := Pass;
    }

    method SetIsPausedAllowed(f: FlagState) returns (o: Outcome)
      modifies this
      ensures o == Pass && State() == old(State()).(isPausedAllowed := f)
    {
      isPausedAllowed := f;
      o := Pass;
    }

    method SetIsConcurrentConnectionAllowed(f: FlagState) returns (o: Outcome)
      modifies this
      ensures o == Pass && State() == old(State()).(isConcurrentConnectionAllowed := f)
    {
      isConcurrentConnectionAllowed := f;
      o := Pass;
    }

    method SetIsDownloadInitialized(b: bool) returns (o: Outcome)
      modifies this
      ensures o == Pass && State() == old(State()).(isDownloadInitialized := b)
    {
      isDownloadInitialized := b;
      o := Pass;
    }

    method SetIsDownloadStarted(b: bool) returns (o: Outcome)
      modifies this
      ensures o == Pass && State() == old(State()).(isDownloadStarted := b)
    {
      isDownloadStarted := b;
      o := Pass;
    }

    method SetIsDownloadRunning(b: bool) returns (o: Outcome)
      modifies this
      ensures o == Pass && State() == old(State()).(isDownloadRunning := b)
    {
      isDownloadRunning := b;
      o := Pass;
    }

    method SetIsDownloadCompleted(b: bool) returns (o: Outcome)
      modifies this
      ensures o == Pass && State() == old(State()).(isDownloadCompleted := b)
    {
      isDownloadCompleted := b;
      o := Pass;
    }

    method SetTempFileNameAppender(k: int) returns (o: Outcome)
      modifies this
      ensures o == Pass && State() == old(State()).(tempFileNameAppender := k)
    {
      tempFileNameAppender := k;
      o := Pass;
    }

    method SetTempFileList(list: seq<string>) returns (o: Outcome)
      modifies this
      ensures o == Pass && State() == old(State()).(tempFileList := list)
    {
      tempFileList := list;
      o := Pass;
    }

    /** setCtx and setCtxCancel together: the context and its cancel function. */
    method SetCtx(c: ContextState) returns (o: Outcome)
      modifies this
      ensures o == Pass && State() == old(State()).(ctx := c)
    {
      ctx := c;
      o := Pass;
    }

    method SetResponse(r: Option<Response>) returns (o: Outcome)
      modifies this
      ensures o == Pass && State() == old(State()).(response := r)
    {
      response := r;
      o := Pass;
    }
  }
}
