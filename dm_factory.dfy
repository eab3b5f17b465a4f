/**
 * Construction of a download manager from functional options
 * (downloadManager/downloadManagerFactory.go): the options run in argument order on a
 * zero-valued manager, the first error aborts, and the save path is then joined.
 */
module DmFactory {
  import opened Common
  import opened Environment
  import opened DmModel

  /** The four option constructors; each delegates to one setter. */
  datatype ManagerOption =
    | DownloadUrl(downloadUrl: string)
    | NrOfConcurrentDownload(nrOfConcurrentDownload: int)
    | SaveDirectory(saveDirectory: string)
    | SaveFileName(saveFileName: string)

  /** The manager after one option's setter, or the setter's error; `occupied` holds the existing paths. */
  function ApplyOption(p: Platform, occupied: iset<string>, s: ManagerState, opt: ManagerOption): (r: Result<ManagerState>)
    ensures opt.NrOfConcurrentDownload? ==>
      (r.Ok? <==> 1 <= opt.nrOfConcurrentDownload <= MaxNrOfConcurrentDownload)
    ensures opt.SaveDirectory? ==> (r.Ok? <==> CheckSaveDirectory(p, occupied, opt.saveDirectory).Ok?)
    ensures opt.SaveFileName? ==> (r.Ok? <==> CheckSaveFileName(p, occupied, opt.saveFileName).Ok?)
    ensures r.Ok? ==> r.value.saveFullPath == s.saveFullPath
  {
    match opt
    case DownloadUrl(u) =>
      var c := CheckDownloadUrl(p, u);
      if c.Err? then Err(c.message) else Ok(s.(downloadUrl := Some(c.value)))
    case NrOfConcurrentDownload(n) =>
      var c := CheckNrOfConcurrentDownload(n);
      if c.Fail? then Err(c.message) else Ok(s.(nrOfConcurrentDownload := n))
    case SaveDirectory(dir) =>
      var c := CheckSaveDirectory(p, occupied, dir);
      if c.Err? then Err(c.message) else Ok(s.(saveDirectory := c.value))
    case SaveFileName(name) =>
      var c := CheckSaveFileName(p, occupied, name);
      if c.Err? then Err(c.message) else Ok(s.(saveFileName := c.value))
  }

  /** The loop over the options: each runs on the result of the previous, the first error stops it. */
  function Configure(p: Platform, occupied: iset<string>, s: ManagerState, opts: seq<ManagerOption>): Result<ManagerState>
    decreases |opts|
  {
    if opts == [] then Ok(s)
    else
      match ApplyOption(p, occupied, s, opts[0])
      case Err(m) => Err(m)
      case Ok(t) => Configure(p, occupied, t, opts[1..])
  }

  /** NewDownloadManager's result: the configured manager with its save path joined, or the first error. */
  function NewDownloadManagerResult(p: Platform, occupied: iset<string>, opts: seq<ManagerOption>): Result<ManagerState>
  {
    match Configure(p, occupied, ZeroManager, opts)
    case Err(m) => Err(m)
    case Ok(s) =>
      var full := p.join(s.saveDirectory, s.saveFileName);
      if full == "" then Err(JoinFailed) else Ok(s.(saveFullPath := full))
  }

  /**
   * The first failing option decides the result: if the first k options succeed and
   * option k fails with m, configuring with all of them fails with m, whatever follows.
   */
  lemma {:induction false} ConfigureStopsAtFirstFailure(p: Platform, occupied: iset<string>, s: ManagerState,
                                                        opts: seq<ManagerOption>, k: nat, t: ManagerState, m: string)
    requires k < |opts|
    requires Configure(p, occupied, s, opts[..k]) == Ok(t)
    requires ApplyOption(p, occupied, t, opts[k]) == Err(m)
    ensures Configure(p, occupied, s, opts) == Err(m)
    decreases k
  {
    if k > 0 {
      assert opts[..k][0] == opts[0] && opts[..k][1..] == opts[1..][..k - 1];
      var s1 := ApplyOption(p, occupied, s, opts[0]).value;
      ConfigureStopsAtFirstFailure(p, occupied, s1, opts[1..], k - 1, t, m);
    }
  }

  /** Options never set the save path: after them it is still the zero value's. */
  lemma {:induction false} ConfigureKeepsSavePath(p: Platform, occupied: iset<string>, s: ManagerState, opts: seq<ManagerOption>)
    requires Configure(p, occupied, s, opts).Ok?
    ensures Configure(p, occupied, s, opts).value.saveFullPath == s.saveFullPath
    decreases |opts|
  {
    if opts != [] {
      ConfigureKeepsSavePath(p, occupied, ApplyOption(p, occupied, s, opts[0]).value, opts[1..]);
    }
  }

  /**
   * The save directory a run of the options leaves, starting from `dir`: the
   * cleaned value of the last SaveDirectory option, or `dir` when there is none.
   */
  function LastSaveDirectory(p: Platform, dir: string, opts: seq<ManagerOption>): string
    decreases |opts|
  {
    if opts == [] then dir
    else LastSaveDirectory(p, if opts[0].SaveDirectory? then p.clean(p.trimSpace(opts[0].saveDirectory)) else dir,
                           opts[1..])
  }

  /** The same for the file name and the SaveFileName options. */
  function LastSaveFileName(p: Platform, name: string, opts: seq<ManagerOption>): string
    decreases |opts|
  {
    if opts == [] then name
    else LastSaveFileName(p, if opts[0].SaveFileName? then p.clean(opts[0].saveFileName) else name, opts[1..])
  }

  /** A successful run of the options leaves the last directory and file name they set. */
  lemma {:induction false} ConfigureKeepsLast(p: Platform, occupied: iset<string>, s: ManagerState,
                                              opts: seq<ManagerOption>)
    requires Configure(p, occupied, s, opts).Ok?
    ensures Configure(p, occupied, s, opts).value.saveDirectory == LastSaveDirectory(p, s.saveDirectory, opts)
    ensures Configure(p, occupied, s, opts).value.saveFileName == LastSaveFileName(p, s.saveFileName, opts)
    decreases |opts|
  {
    if opts != [] {
      var s1 := ApplyOption(p, occupied, s, opts[0]).value;
      ConfigureKeepsLast(p, occupied, s1, opts[1..]);
    }
  }

  /**
   * A manager NewDownloadManager returns saves to the cleaned directory and file
   * name of the last SaveDirectory and SaveFileName options (empty without one),
   * and its full path is their non-empty join.
   */
  lemma NewDownloadManagerSavesLast(p: Platform, occupied: iset<string>, opts: seq<ManagerOption>)
    requires NewDownloadManagerResult(p, occupied, opts).Ok?
    ensures var s := NewDownloadManagerResult(p, occupied, opts).value;
      && s.saveDirectory == LastSaveDirectory(p, "", opts)
      && s.saveFileName == LastSaveFileName(p, "", opts)
      && s.saveFullPath == p.join(s.saveDirectory, s.saveFileName) != ""
  {
    ConfigureKeepsLast(p, occupied, ZeroManager, opts);
  }

  /** Runs one option's closure on the manager: exactly its setter. */
  method RunOption(d: DownloadManager, p: Platform, disk: Disk, opt: ManagerOption) returns (o: Outcome)
    modifies d
    ensures var r := ApplyOption(p, disk.Occupied(), old(d.State()), opt);
      && (o.Pass? <==> r.Ok?)
      && (r.Err? ==> o == Fail(r.message) && d.State() == old(d.State()))
      && (r.Ok? ==> d.State() == r.value)
  {
    match opt
    case DownloadUrl(u) => o := d.SetDownloadUrl(p, u);
    case NrOfConcurrentDownload(n) => o := d.SetNrOfConcurrentDownload(n);
    case SaveDirectory(dir) => o := d.SetSaveDirectory(p, disk, dir);
    case SaveFileName(name) => o := d.SetSaveFileName(p, disk, name);
  }

  /** NewDownloadManager: a fresh manager configured by the options, or nil and the first error. */
  method NewDownloadManager(p: Platform, disk: Disk, opts: seq<ManagerOption>) returns (d: DownloadManager?, o: Outcome)
    ensures var r := NewDownloadManagerResult(p, disk.Occupied(), opts);
      && (o.Pass? <==> r.Ok?)
      && (r.Err? ==> o == Fail(r.message) && d == null)
      && (r.Ok? ==> d != null && fresh(d) && d.State() == r.value)
  {
    var downloader := new DownloadManager();
    ghost var occupied := disk.Occupied();
    var remaining := opts;
    while remaining != []
      invariant fresh(downloader)
      invariant Configure(p, occupied, ZeroManager, opts) == Configure(p, occupied, downloader.State(), remaining)
    {
      var err := RunOption(downloader, p, disk, remaining[0]);
      if err.Fail? {
        return null, err;
      }
      remaining := remaining[1..];
    }
    var err := downloader.SetSaveFullPath(p);
    if err.Fail? {
      return null, err;
    }
    d, o := downloader, Pass;
  }
}
