/**
 * The older user settings (userSettings/userSettingsModel.go): the number of
 * concurrent downloads, which the setter clamps to [1, 64] and reports when it had to.
 */
module UserSettingsModel {
  import opened Common

  /** The largest number of concurrent downloads (downloadManager.MaxNrOfConcurrentDownload). */
  const MaxNrOfConcurrentDownload: int := 64

  /** The error for a count above the maximum; the maximum is stored instead. */
  const AboveMaximum: string :=
    "defaulting to the maximum allowed concurrent download (" + MaxCountText +
    ") as given number of concurrent download exceeded maximum allowed"

  /** The error for a count below 1; 1 is stored instead. */
  const BelowOne: string :=
    "defaulting to 1 concurrent download as given number of concurrent download is set below 1"

  /** The error SetNrOfConcurrentDownload returns: nil exactly for an in-range count. */
  function ClampError(n: int): (o: Outcome)
    ensures o.Pass? <==> 1 <= n <= MaxNrOfConcurrentDownload
  {
    if n > MaxNrOfConcurrentDownload then
      Fail(AboveMaximum)
    else if n < 1 then
      Fail(BelowOne)
    else Pass
  }

  /** Setting again to the value the setter stored succeeds and stores the same value. */
  lemma SetIdempotent(n: int)
    ensures ClampError(Clamp(n, MaxNrOfConcurrentDownload)) == Pass
    ensures Clamp(Clamp(n, MaxNrOfConcurrentDownload), MaxNrOfConcurrentDownload) == Clamp(n, MaxNrOfConcurrentDownload)
  {
  }

  class UserSettings {
    var nrOfConcurrentDownload: int

    /** `&UserSettings{}`. */
    constructor ()
      ensures nrOfConcurrentDownload == 0
    {
      nrOfConcurrentDownload := 0;
    }

    /**
     * SetNrOfConcurrentDownload: stores the nearest value in range and reports an
     * out-of-range count; the stored value is always in range.
     */
    method SetNrOfConcurrentDownload(n: int) returns (o: Outcome)
      modifies this
      ensures o == ClampError(n)
      ensures nrOfConcurrentDownload == Clamp(n, MaxNrOfConcurrentDownload)
      ensures 1 <= nrOfConcurrentDownload <= MaxNrOfConcurrentDownload
    {
      o := Pass;
      if n > MaxNrOfConcurrentDownload {
        o := Fail(AboveMaximum);
        nrOfConcurrentDownload := MaxNrOfConcurrentDownload;
      } else if n < 1 {
        o := Fail(BelowOne);
        nrOfConcurrentDownload := 1;
      } else {
        nrOfConcurrentDownload := n;
      }
    }
  }
}
