/**
 * Construction of a user's settings from functional options
 * (user/setting/factory.go): the options run in order on a zero-valued setting and
 * the first error discards it.
 */
module SettingFactory {
  import opened Common
  import opened UserSetting

  /** The one option constructor; it delegates to the setter. */
  datatype SettingOption = NrOfConcurrentConnection(nrOfConcurrentConnection: int)

  /** Whether an option's count is accepted without defaulting. */
  predicate InRange(opt: SettingOption)
  {
    1 <= opt.nrOfConcurrentConnection <= MaxNrOfConcurrentConnection
  }

  /** The stored count after the options, from `stored`, or the first error. */
  function Configure(stored: int, opts: seq<SettingOption>): Result<int>
    decreases |opts|
  {
    if opts == [] then Ok(stored)
    else
      var n := opts[0].nrOfConcurrentConnection;
      var o := ClampError(n);
      if o.Fail? then Err(o.message) else Configure(Clamp(n, MaxNrOfConcurrentConnection), opts[1..])
  }

  /**
   * NewSetting succeeds exactly when every option is in range; its count is then
   * the last option's, or 0 (outside [1, 64]) when there is no option.
   */
  lemma {:induction false} ConfigureResult(stored: int, opts: seq<SettingOption>)
    ensures Configure(stored, opts).Ok? <==> forall k :: 0 <= k < |opts| ==> InRange(opts[k])
    ensures Configure(stored, opts).Ok? ==>
      Configure(stored, opts).value == if opts == [] then stored else opts[|opts| - 1].nrOfConcurrentConnection
    decreases |opts|
  {
    if opts != [] {
      ConfigureResult(Clamp(opts[0].nrOfConcurrentConnection, MaxNrOfConcurrentConnection), opts[1..]);
      assert forall k :: 0 < k < |opts| ==> opts[1..][k - 1] == opts[k];
    }
  }

  /** The first out-of-range option's error is the result, whatever follows it. */
  lemma {:induction false} ConfigureFirstError(stored: int, opts: seq<SettingOption>, k: nat)
    requires k < |opts| && !InRange(opts[k])
    requires forall j :: 0 <= j < k ==> InRange(opts[j])
    ensures Configure(stored, opts) == Err(ClampError(opts[k].nrOfConcurrentConnection).message)
    decreases k
  {
    if k > 0 {
      assert forall j :: 0 <= j < k - 1 ==> opts[1..][j] == opts[j + 1];
      ConfigureFirstError(Clamp(opts[0].nrOfConcurrentConnection, MaxNrOfConcurrentConnection), opts[1..], k - 1);
    }
  }

  /** NewSetting: a fresh setting configured by the options, or nil and the first error. */
  method NewSetting(opts: seq<SettingOption>) returns (s: Setting?, o: Outcome)
    ensures var r := Configure(0, opts);
      && (o.Pass? <==> r.Ok?)
      && (r.Err? ==> o == Fail(r.message) && s == null)
      && (r.Ok? ==> s != null && fresh(s) && s.nrOfConcurrentConnection == r.value)
  {
    var setting := new Setting();
    var remaining := opts;
    while remaining != []
      invariant fresh(setting)
      invariant Configure(0, opts) == Configure(setting.nrOfConcurrentConnection, remaining)
    {
      var err := setting.SetNrOfConcurrentConnection(remaining[0].nrOfConcurrentConnection);
      if err.Fail? {
        return null, err;
      }
      remaining := remaining[1..];
    }
    s, o := setting, Pass;
  }
}
