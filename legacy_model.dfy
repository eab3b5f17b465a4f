/**
 * The older download manager with boolean feature flags
 * (downloadManager/downloadManagerModel.go at the repository root): its fields, the
 * validating setters and setSaveFullPath.
 */
module LegacyModel {
  import opened Common
  import opened Environment

  /** The largest number of concurrent downloads a manager accepts. */
  const MaxNrOfConcurrentDownload: int := 64

  /** The error setSaveFullPath reports when joining gives the empty path. */
  const JoinFailed: string := "error in combining save directory and file path"

  /** A snapshot of every field of a manager (ctx and ctxCancel are one field here). */
  datatype LegacyState = LegacyState(
    downloadUrl: Option<Url>,
    nrOfConcurrentDownload: int,
    saveDirectory: string,
    saveFileName: string,
    saveFullPath: string,
    ctx: ContextState,
    response: Option<Response>,
    fileSize: int,
    isPausedAllowed: bool,
    isConcurrentAllowed: bool)

  /** The error for an empty download URL. */
  const UrlEmpty: string := "download URL is empty"

  /** The error for an empty save directory. */
  const DirectoryEmpty: string := "save directory cannot be empty"

  /** The error for a save directory that does not exist. */
  const DirectoryMissing: string := "the given save directory does not exists"

  /** The error for an empty file name. */
  const FileNameEmpty: string := "file name cannot be empty"

  /** The error for a file name holding '/'. */
  const SlashInFileName: string := "forward slash '/' is not allowed in file name"

  /** The error for a file name that already exists. */
  const FileNameTaken: string := "the given file name to save already exists"

  /** The error for a download count above the maximum. */
  const AboveMaximum: string :=
    "number of concurrent download given exceeded maximum allowed (" + MaxCountText + ")"

  /** The error for a download count below 1. */
  const BelowOne: string :=
    "number of concurrent download given is less than 1"

  /** What SetDownloadUrl accepts: a non-empty text that url.Parse accepts. */
  function CheckDownloadUrl(p: Platform, downloadUrl: string): (r: Result<Url>)
    ensures downloadUrl == "" ==> r == Err(UrlEmpty)
    ensures downloadUrl != "" ==> r == p.parseUrl(downloadUrl)
  {
    if |downloadUrl| == 0 then Err(UrlEmpty) else p.parseUrl(downloadUrl)
  }

  /** What SetNrOfConcurrentDownload accepts: exactly the counts 1 to 64. */
  function CheckNrOfConcurrentDownload(n: int): (o: Outcome)
    ensures o.Pass? <==> 1 <= n <= MaxNrOfConcurrentDownload
  {
    if n > MaxNrOfConcurrentDownload then
      Fail(AboveMaximum)
    else if n < 1 then
      Fail(BelowOne)
    else Pass
  }

  /**
   * The directory SetSaveDirectory stores: the input trimmed and converted with
   * FromSlash, when the input is non-empty (checked before trimming) and os.Stat on
   * the converted path reports anything but "does not exist".
   */
  function CheckSaveDirectory(p: Platform, occupied: iset<string>, saveDirectory: string): (r: Result<string>)
    ensures r.Ok? <==> saveDirectory != "" && p.fromSlash(p.trimSpace(saveDirectory)) in occupied
    ensures r.Ok? ==> r.value == p.fromSlash(p.trimSpace(saveDirectory))
  {
    if |saveDirectory| == 0 then Err(DirectoryEmpty)
    else
      var converted := p.fromSlash(p.trimSpace(saveDirectory));
      if converted !in occupied then Err(DirectoryMissing)
      else Ok(converted)
  }

  /**
   * The name SetSaveFileName stores: the input converted with ToSlash, when the
   * input is non-empty, the converted name has no '/', and os.Stat on it reports
   * "does not exist".
   */
  function CheckSaveFileName(p: Platform, occupied: iset<string>, saveFileName: string): (r: Result<string>)
    ensures r.Ok? <==> saveFileName != "" && '/' !in p.toSlash(saveFileName) && p.toSlash(saveFileName) !in occupied
    ensures r.Ok? ==> r.value == p.toSlash(saveFileName)
    ensures saveFileName != "" && '/' in p.toSlash(saveFileName) ==> r == Err(SlashInFileName)
  {
    if |saveFileName| == 0 then Err(FileNameEmpty)
    else
      var converted := p.toSlash(saveFileName);
      if '/' in converted then Err(SlashInFileName)
      else if converted in occupied then Err(FileNameTaken)
      else Ok(converted)
  }

  /** A download manager; each field as in the Go struct. */
  class DownloadManager {
    var downloadUrl: Option<Url>
    var nrOfConcurrentDownload: int
    var saveDirectory: string
    var saveFileName: string
    var saveFullPath: string
    var ctx: ContextState
    var response: Option<Response>
    var fileSize: int
    var isPausedAllowed: bool
    var isConcurrentAllowed: bool

    function State(): LegacyState
      reads this
    {
      LegacyState(downloadUrl, nrOfConcurrentDownload, saveDirectory, saveFileName, saveFullPath,
                  ctx, response, fileSize, isPausedAllowed, isConcurrentAllowed)
    }

    /** `&DownloadManager{}`: every field at its zero value. */
    constructor ()
      ensures State() == LegacyState(None, 0, "", "", "", NoContext, None, 0, false, false)
    {
      downloadUrl, nrOfConcurrentDownload := None, 0;
      saveDirectory, saveFileName, saveFullPath := "", "", "";
      ctx, response, fileSize := NoContext, None, 0;
      isPausedAllowed, isConcurrentAllowed := false, false;
    }

    method SetDownloadUrl(p: Platform, downloadUrl0: string) returns (o: Outcome)
      modifies this
      ensures var r := CheckDownloadUrl(p, downloadUrl0);
        && (o.Pass? <==> r.Ok?)
        && (r.Err? ==> o == Fail(r.message) && State() == old(State()))
        && (r.Ok? ==> State() == old(State()).(downloadUrl := Some(r.value)))
    {
      var r := CheckDownloadUrl(p, downloadUrl0);
      if r.Err? {
        return Fail(r.message);
      }
      downloadUrl := Some(r.value);
      o := Pass;
    }

    method SetNrOfConcurrentDownload(n: int) returns (o: Outcome)
      modifies this
      ensures o == CheckNrOfConcurrentDownload(n)
      ensures State() == if o.Pass? then old(State()).(nrOfConcurrentDownload := n) else old(State())
    {
      o := CheckNrOfConcurrentDownload(n);
      if o.Pass? {
        nrOfConcurrentDownload := n;
      }
    }

    /** Stores the trimmed, FromSlash-converted directory. */
    method SetSaveDirectory(p: Platform, disk: Disk, saveDirectory0: string) returns (o: Outcome)
      modifies this
      ensures var r := CheckSaveDirectory(p, disk.Occupied(), saveDirectory0);
        && (o.Pass? <==> r.Ok?)
        && (r.Err? ==> o == Fail(r.message))
        && State() == if r.Ok? then old(State()).(saveDirectory := r.value) else old(State())
    {
      if |saveDirectory0| == 0 {
        return Fail(DirectoryEmpty);
      }
      var converted := p.fromSlash(p.trimSpace(saveDirectory0));
      if !disk.IsFileExist(converted) {
        return Fail(DirectoryMissing);
      }
      saveDirectory := converted;
      o := Pass;
    }

    /** Stores the ToSlash-converted name. */
    method SetSaveFileName(p: Platform, disk: Disk, saveFileName0: string) returns (o: Outcome)
      modifies this
      ensures var r := CheckSaveFileName(p, disk.Occupied(), saveFileName0);
        && (o.Pass? <==> r.Ok?)
        && (r.Err? ==> o == Fail(r.message))
        && State() == if r.Ok? then old(State()).(saveFileName := r.value) else old(State())
    {
      if |saveFileName0| == 0 {
        return Fail(FileNameEmpty);
      }
      var converted := p.toSlash(saveFileName0);
      if '/' in converted {
        return Fail(SlashInFileName);
      }
      if disk.IsFileExist(converted) {
        return Fail(FileNameTaken);
      }
      saveFileName := converted;
      o := Pass;
    }

    /** setSaveFullPath: stores the joined path, and fails exactly when it is empty. */
    method SetSaveFullPath(p: Platform) returns (o: Outcome)
      modifies this
      ensures State() == old(State()).(saveFullPath := p.join(old(saveDirectory), old(saveFileName)))
      ensures o == if saveFullPath != "" then Pass else Fail(JoinFailed)
    {
      saveFullPath := p.join(saveDirectory, saveFileName);
      if |saveFullPath| <= 0 {
        return Fail(JoinFailed);
      }
      o := Pass;
    }
  }
}
