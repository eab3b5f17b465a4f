/**
 * Construction of a manager session from functional options (manager/factory.go):
 * the options run in argument order on a zero-valued session, the first error
 * aborts, and the save path is then derived.
 */
module ManagerFactory {
  import opened Common
  import opened Environment
  import opened ManagerModel

  /** The four option constructors; each delegates to one setter. */
  datatype ConfigOption =
    | DownloadURL(downloadURL: string)
    | NrOfConcurrentDownload(nrOfConcurrentDownload: int)
    | SaveDirectory(saveDirectory: string)
    | SaveFileName(saveFileName: string)

  /** The session after one option's setter, or the setter's error; `occupied` holds the existing paths. */
  function ApplyOption(p: Platform, occupied: iset<string>, s: DownloadState, opt: ConfigOption): (r: Result<DownloadState>)
    ensures opt.NrOfConcurrentDownload? ==>
      (r.Ok? <==> 1 <= opt.nrOfConcurrentDownload <= MaxNrOfConcurrentConnectionAllowed)
    ensures opt.SaveFileName? ==> (r.Ok? <==> CleanFileName(p, opt.saveFileName).Ok?)
    ensures r.Ok? ==> r.value.saveFullPath == s.saveFullPath && r.value.defaultFileName == s.defaultFileName
    ensures r.Ok? && !opt.SaveFileName? ==> r.value.saveFileName == s.saveFileName
    ensures r.Ok? && opt.SaveFileName? ==> r.value.saveFileName == opt.saveFileName != ""
  {
    match opt
    case DownloadURL(u) =>
      var c := CheckDownloadURL(p, u);
      if c.Err? then Err(c.message) else Ok(s.(downloadURL := Some(c.value)))
    case NrOfConcurrentDownload(n) =>
      var c := CheckMaxNrOfConcurrentConnection(n);
      if c.Fail? then Err(c.message) else Ok(s.(maxNrOfConcurrentConnection := n))
    case SaveDirectory(dir) =>
      var c := CheckSaveDirectory(p, occupied, dir);
      if c.Fail? then Err(c.message) else Ok(s.(saveDirectory := dir))
    case SaveFileName(name) =>
      var c := CleanFileName(p, name);
      if c.Err? then Err(c.message) else Ok(s.(saveFileName := name))
  }

  /** The loop over the options: each runs on the result of the previous, the first error stops it. */
  function Configure(p: Platform, occupied: iset<string>, s: DownloadState, opts: seq<ConfigOption>): Result<DownloadState>
    decreases |opts|
  {
    if opts == [] then Ok(s)
    else
      match ApplyOption(p, occupied, s, opts[0])
      case Err(m) => Err(m)
      case Ok(t) => Configure(p, occupied, t, opts[1..])
  }

  /** NewDownload's result: the configured session with its save path set, or the first error. */
  function NewDownloadResult(p: Platform, occupied: iset<string>, opts: seq<ConfigOption>): Result<DownloadState>
  {
    match Configure(p, occupied, ZeroDownload, opts)
    case Err(m) => Err(m)
    case Ok(s) =>
      var c := ChooseSaveFileName(s.saveFileName, s.defaultFileName);
      if c.Err? then Err(c.message)
      else
        var full := p.join(s.saveDirectory, c.value);
        if full == "" then Err(JoinFailed)
        else Ok(s.(saveFullPath := full))
  }

  /**
   * The first failing option decides the result: if the first k options succeed and
   * option k fails with m, configuring with all of them fails with m, whatever follows.
   */
  lemma {:induction false} ConfigureStopsAtFirstFailure(p: Platform, occupied: iset<string>, s: DownloadState,
                                                        opts: seq<ConfigOption>, k: nat, t: DownloadState, m: string)
    requires k < |opts|
    requires Configure(p, occupied, s, opts[..k]) == Ok(t)
    requires ApplyOption(p, occupied, t, opts[k]) == Err(m)
    ensures Configure(p, occupied, s, opts) == Err(m)
    decreases k
  {
    if k > 0 {
      assert opts[..k][0] == opts[0] && opts[..k][1..] == opts[1..][..k - 1];
      var s1 := ApplyOption(p, occupied, s, opts[0]).value;
      ConfigureStopsAtFirstFailure(p, occupied, s1, opts[1..], k - 1, t, m);
    }
  }

  /** Options other than SaveFileName never set a file name, nor does any option set the default one. */
  lemma {:induction false} ConfigureKeepsNames(p: Platform, occupied: iset<string>, s: DownloadState, opts: seq<ConfigOption>)
    requires Configure(p, occupied, s, opts).Ok?
    ensures Configure(p, occupied, s, opts).value.defaultFileName == s.defaultFileName
    ensures (forall k :: 0 <= k < |opts| ==> !opts[k].SaveFileName?) ==>
      Configure(p, occupied, s, opts).value.saveFileName == s.saveFileName
    decreases |opts|
  {
    if opts != [] {
      var t := ApplyOption(p, occupied, s, opts[0]).value;
      ConfigureKeepsNames(p, occupied, t, opts[1..]);
      assert forall k :: 0 <= k < |opts| - 1 ==> opts[1..][k] == opts[k + 1];
    }
  }

  /** Without a SaveFileName option construction always fails: no file name is ever set. */
  lemma NoSaveFileNameFails(p: Platform, occupied: iset<string>, opts: seq<ConfigOption>)
    requires forall k :: 0 <= k < |opts| ==> !opts[k].SaveFileName?
    ensures NewDownloadResult(p, occupied, opts).Err?
  {
    if Configure(p, occupied, ZeroDownload, opts).Ok? {
      ConfigureKeepsNames(p, occupied, ZeroDownload, opts);
    }
  }

  /** A constructed session's save path joins its directory and its (raw, non-empty) save file name. */
  lemma NewDownloadJoinsPath(p: Platform, occupied: iset<string>, opts: seq<ConfigOption>)
    requires NewDownloadResult(p, occupied, opts).Ok?
    ensures var s := NewDownloadResult(p, occupied, opts).value;
      && s.saveFileName != ""
      && s.saveFullPath == p.join(s.saveDirectory, s.saveFileName)
      && s.saveFullPath != ""
  {
    ConfigureKeepsNames(p, occupied, ZeroDownload, opts);
  }

  /** Runs one option's closure on the session: exactly its setter. */
  method RunOption(d: Download, p: Platform, disk: Disk, opt: ConfigOption) returns (o: Outcome)
    modifies d
    ensures var r := ApplyOption(p, disk.Occupied(), old(d.State()), opt);
      && (o.Pass? <==> r.Ok?)
      && (r.Err? ==> o == Fail(r.message) && d.State() == old(d.State()))
      && (r.Ok? ==> d.State() == r.value)
  {
    match opt
    case DownloadURL(u) => o := d.SetDownloadURL(p, u);
    case NrOfConcurrentDownload(n) => o := d.SetMaxNrOfConcurrentConnection(n);
    case SaveDirectory(dir) => o := d.SetSaveDirectory(p, disk, dir);
    case SaveFileName(name) => o := d.SetSaveFileName(p, name);
  }

  /** NewDownload: a fresh session configured by the options, or nil and the first error. */
  method NewDownload(p: Platform, disk: Disk, opts: seq<ConfigOption>) returns (d: Download?, o: Outcome)
    ensures var r := NewDownloadResult(p, disk.Occupied(), opts);
      && (o.Pass? <==> r.Ok?)
      && (r.Err? ==> o == Fail(r.message) && d == null)
      && (r.Ok? ==> d != null && fresh(d) && d.State() == r.value)
  {
    var download := new Download();
    ghost var occupied := disk.Occupied();
    var remaining := opts;
    while remaining != []
      invariant fresh(download)
      invariant Configure(p, occupied, ZeroDownload, opts) == Configure(p, occupied, download.State(), remaining)
    {
      var err := RunOption(download, p, disk, remaining[0]);
      if err.Fail? {
        return null, err;
      }
      remaining := remaining[1..];
    }
    var err := download.SetSaveFullPath(p);
    if err.Fail? {
      return null, err;
    }
    d, o := download, Pass;
  }
}
