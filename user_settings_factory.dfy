/**
 * Construction of the older user settings from functional options
 * (userSettings/userSettingsFactory.go): the options run in order on zero-valued
 * settings and the first error discards them.
 */
module UserSettingsFactory {
  import opened Common
  import opened UserSettingsModel

  /** The one option constructor; it delegates to the setter. */
  datatype UserSettingsOption = NrOfConcurrentDownload(nrOfConcurrentDownload: int)

  /** Whether an option's count is accepted without defaulting. */
  predicate InRange(opt: UserSettingsOption)
  {
    1 <= opt.nrOfConcurrentDownload <= MaxNrOfConcurrentDownload
  }

  /** The stored count after the options, from `stored`, or the first error. */
  function Configure(stored: int, opts: seq<UserSettingsOption>): Result<int>
    decreases |opts|
  {
    if opts == [] then Ok(stored)
    else
      var n := opts[0].nrOfConcurrentDownload;
      var o := ClampError(n);
      if o.Fail? then Err(o.message) else Configure(Clamp(n, MaxNrOfConcurrentDownload), opts[1..])
  }

  /**
   * NewUserSettings succeeds exactly when every option is in range; its count is
   * then the last option's, or 0 when there is no option.
   */
  lemma {:induction false} ConfigureResult(stored: int, opts: seq<UserSettingsOption>)
    ensures Configure(stored, opts).Ok? <==> forall k :: 0 <= k < |opts| ==> InRange(opts[k])
    ensures Configure(stored, opts).Ok? ==>
      Configure(stored, opts).value == if opts == [] then stored else opts[|opts| - 1].nrOfConcurrentDownload
    decreases |opts|
  {
    if opts != [] {
      ConfigureResult(Clamp(opts[0].nrOfConcurrentDownload, MaxNrOfConcurrentDownload), opts[1..]);
      assert forall k :: 0 < k < |opts| ==> opts[1..][k - 1] == opts[k];
    }
  }

  /** The first out-of-range option's error is the result, whatever follows it. */
  lemma {:induction false} ConfigureFirstError(stored: int, opts: seq<UserSettingsOption>, k: nat)
    requires k < |opts| && !InRange(opts[k])
    requires forall j :: 0 <= j < k ==> InRange(opts[j])
    ensures Configure(stored, opts) == Err(ClampError(opts[k].nrOfConcurrentDownload).message)
    decreases k
  {
    if k > 0 {
      assert forall j :: 0 <= j < k - 1 ==> opts[1..][j] == opts[j + 1];
      ConfigureFirstError(Clamp(opts[0].nrOfConcurrentDownload, MaxNrOfConcurrentDownload), opts[1..], k - 1);
    }
  }

  /** NewUserSettings: fresh settings configured by the options, or nil and the first error. */
  method NewUserSettings(opts: seq<UserSettingsOption>) returns (u: UserSettings?, o: Outcome)
    ensures var r := Configure(0, opts);
      && (o.Pass? <==> r.Ok?)
      && (r.Err? ==> o == Fail(r.message) && u == null)
      && (r.Ok? ==> u != null && fresh(u) && u.nrOfConcurrentDownload == r.value)
  {
    var userSettings := new UserSettings();
    var remaining := opts;
    while remaining != []
      invariant fresh(userSettings)
      invariant Configure(0, opts) == Configure(userSettings.nrOfConcurrentDownload, remaining)
    {
      var err := userSettings.SetNrOfConcurrentDownload(remaining[0].nrOfConcurrentDownload);
      if err.Fail? {
        return null, err;
      }
      remaining := remaining[1..];
    }
    u, o := userSettings, Pass;
  }
}
