/**
 * A user's settings (user/setting/setting.go): the number of concurrent
 * connections, which the setter clamps to [1, 64] and reports when it had to.
 */
module UserSetting {
  import opened Common

  /**
   * The largest number of concurrent connections. The source names
   * downloadManager.MaxNrOfConcurrentConnection, which that package does not
   * declare; its maximum is MaxNrOfConcurrentDownload, 64.
   */
  const MaxNrOfConcurrentConnection: int := 64

  /** The error for a count above the maximum; the maximum is stored instead. */
  const AboveMaximum: string :=
    "defaulting to the maximum allowed concurrent connection (" + MaxCountText +
    ") as the given number exceeded maximum allowed"

  /** The error for a count below 1; 1 is stored instead. */
  const BelowOne: string :=
    "defaulting to 1 concurrent connection as the given number is below 1"

  /** The error SetNrOfConcurrentConnection returns: nil exactly for an in-range count. */
  function ClampError(n: int): (o: Outcome)
    ensures o.Pass? <==> 1 <= n <= MaxNrOfConcurrentConnection
  {
    if n > MaxNrOfConcurrentConnection then
      Fail(AboveMaximum)
    else if n < 1 then
      Fail(BelowOne)
    else Pass
  }

  /** Setting again to the value the setter stored succeeds and stores the same value. */
  lemma SetIdempotent(n: int)
    ensures ClampError(Clamp(n, MaxNrOfConcurrentConnection)) == Pass
    ensures Clamp(Clamp(n, MaxNrOfConcurrentConnection), MaxNrOfConcurrentConnection) == Clamp(n, MaxNrOfConcurrentConnection)
  {
  }

  class Setting {
    var nrOfConcurrentConnection: int

    /** `&Setting{}`. */
    constructor ()
      ensures nrOfConcurrentConnection == 0
    {
      nrOfConcurrentConnection := 0;
    }

    /**
     * SetNrOfConcurrentConnection: stores the count, then replaces an out-of-range
     * one by the nearest bound and reports it; the stored value is always in range.
     */
    method SetNrOfConcurrentConnection(n: int) returns (o: Outcome)
      modifies this
      ensures o == ClampError(n)
      ensures nrOfConcurrentConnection == Clamp(n, MaxNrOfConcurrentConnection)
      ensures 1 <= nrOfConcurrentConnection <= MaxNrOfConcurrentConnection
    {
      o := Pass;
      nrOfConcurrentConnection := n;
      if n > MaxNrOfConcurrentConnection {
        o := Fail(AboveMaximum);
        nrOfConcurrentConnection := MaxNrOfConcurrentConnection;
      } else if n < 1 {
        o := Fail(BelowOne);
        nrOfConcurrentConnection := 1;
      }
    }
  }
}
