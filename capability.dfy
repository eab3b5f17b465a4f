/**
 * Whether the server supports byte-range requests (section 2.3 of RFC 7233:
 * `Accept-Ranges: none` says it does not), decided from the probe response.
 */
module Capability {
  import opened Common
  import opened Environment
  import opened FlagStates

  /**
   * The value both the concurrency flag and the pause flag receive from a probe
   * response (manager/download.go processRequestHeader and
   * downloadManager/downloadManager.go InitializeDownload).
   */
  function RangeSupport(contentLength: int, acceptRanges: Option<HeaderValues>): (f: FlagState)
    ensures f == Allowed <==> contentLength > 0 && acceptRanges.Some? && acceptRanges.value[0] != "none"
    ensures f == Unknown <==> contentLength > 0 && acceptRanges.None?
    ensures f == NotAllowed <==> contentLength <= 0 || (acceptRanges.Some? && acceptRanges.value[0] == "none")
  {
    if contentLength > 0 then
      match acceptRanges
      case Some(values) => if values[0] == "none" then NotAllowed else Allowed
      case None => Unknown
    else
      NotAllowed
  }

  /** An unknown or empty length disables ranges whatever the headers say. */
  lemma UnknownLengthDisables(contentLength: int, acceptRanges: Option<HeaderValues>)
    requires contentLength <= 0
    ensures RangeSupport(contentLength, acceptRanges) == NotAllowed
  {
  }

  /** The older, boolean decision: true when Accept-Ranges is present, non-empty and not "none". */
  predicate LegacyHeaderAllows(acceptRanges: Option<seq<string>>)
  {
    acceptRanges.Some? && |acceptRanges.value| > 0 && acceptRanges.value[0] != "none"
  }

  /**
   * The flags (concurrent, paused) after the older InitializeDownload
   * (downloadManager/downloadManager.go:58-73), from the flags before it.
   */
  function LegacyFlags(concurrent: bool, paused: bool, contentLength: int, acceptRanges: Option<seq<string>>): (r: (bool, bool))
    ensures r.0 <==> concurrent || LegacyHeaderAllows(acceptRanges)
    ensures r.1 <==> (paused || LegacyHeaderAllows(acceptRanges)) && contentLength != -1
  {
    var allows := LegacyHeaderAllows(acceptRanges);
    var c := if allows then true else concurrent;
    var p0 := if allows then true else paused;
    var p := if !p0 || contentLength == -1 then false else true;
    (c, p)
  }

  /** The concurrency flag is never cleared: it can only go from false to true. */
  lemma LegacyConcurrentMonotone(concurrent: bool, paused: bool, contentLength: int, acceptRanges: Option<seq<string>>)
    requires concurrent
    ensures LegacyFlags(concurrent, paused, contentLength, acceptRanges).0
  {
  }

  /** "Pausing is allowed only if concurrent requests are" survives the decision. */
  lemma LegacyPausedImpliesConcurrent(concurrent: bool, paused: bool, contentLength: int, acceptRanges: Option<seq<string>>)
    requires paused ==> concurrent
    ensures var r := LegacyFlags(concurrent, paused, contentLength, acceptRanges); r.1 ==> r.0
  {
  }

  /** Only -1 counts as an unknown length: a zero length does not block pausing. */
  lemma LegacyZeroLengthPausable(concurrent: bool, paused: bool)
    ensures LegacyFlags(concurrent, paused, 0, Some(["bytes"])).1
    ensures !LegacyFlags(concurrent, paused, -1, Some(["bytes"])).1
  {
  }
}
