/**
 * The operations of the older download manager (downloadManager/downloadManager.go
 * at the repository root): the probe with its boolean capability decision, and
 * Download, which probes and then starts the (empty) concurrent download.
 */
module LegacyDownload {
  import opened Common
  import opened Environment
  import opened Capability
  import opened LegacyModel

  /** The header values as the older code sees them (any list, possibly empty). */
  function AcceptRangesOf(r: Response): Option<seq<string>>
  {
    match r.acceptRanges
    case Some(values) => Some(values)
    case None => None
  }

  /**
   * InitializeDownload: installs a new context and probes the URL. On a failed
   * request the model clears the response and returns before either flag changes;
   * a response is kept and the flags follow LegacyFlags.
   */
  method InitializeDownload(d: DownloadManager, t: Transport) returns (o: Outcome)
    requires d.downloadUrl.Some?
    modifies d
    ensures var r := t(Request(old(d.downloadUrl).value.text, None));
      && (o.Pass? <==> r.Ok?)
      && (r.Err? ==> o == Fail(r.message) && d.State() == old(d.State()).(ctx := Live, response := None))
      && (r.Ok? ==>
            var flags := LegacyFlags(old(d.isConcurrentAllowed), old(d.isPausedAllowed),
                                     r.value.contentLength, AcceptRangesOf(r.value));
            d.State() == old(d.State()).(ctx := Live, response := Some(r.value),
                                         isConcurrentAllowed := flags.0, isPausedAllowed := flags.1))
  {
    d.ctx := Live;
    var response := t(Request(d.downloadUrl.value.text, None));
    if response.Err? {
      d.response := None;
      return Fail(response.message);
    }
    d.response := Some(response.value);
    var acceptRanges := AcceptRangesOf(response.value);
    if acceptRanges.Some? && |acceptRanges.value| > 0 && acceptRanges.value[0] != "none" {
      d.isConcurrentAllowed := true;
      d.isPausedAllowed := true;
    }
    if !d.isPausedAllowed || response.value.contentLength == -1 {
      d.isPausedAllowed := false;
    } else {
      d.isPausedAllowed := true;
    }
    o := Pass;
  }

  /** StartConcurrentDownload: its body is commented out; it returns nil. */
  method StartConcurrentDownload(d: DownloadManager) returns (o: Outcome)
    ensures o == Pass
  {
    o := Pass;
  }

  /**
   * Download: InitializeDownload, then StartConcurrentDownload; it fails exactly
   * when the probe does, leaves the state as the probe does (the flags follow
   * LegacyFlags), and keeps "pausing only if concurrent" like the probe.
   */
  method Download(d: DownloadManager, t: Transport) returns (o: Outcome)
    requires d.downloadUrl.Some?
    modifies d
    ensures var r := t(Request(old(d.downloadUrl).value.text, None));
      && (o.Pass? <==> r.Ok?)
      && (r.Err? ==> o == Fail(r.message) && d.State() == old(d.State()).(ctx := Live, response := None))
      && (r.Ok? ==>
            var flags := LegacyFlags(old(d.isConcurrentAllowed), old(d.isPausedAllowed),
                                     r.value.contentLength, AcceptRangesOf(r.value));
            d.State() == old(d.State()).(ctx := Live, response := Some(r.value),
                                         isConcurrentAllowed := flags.0, isPausedAllowed := flags.1))
    ensures (old(d.isPausedAllowed) ==> old(d.isConcurrentAllowed)) ==> (d.isPausedAllowed ==> d.isConcurrentAllowed)
  {
    o := InitializeDownload(d, t);
    if o.Fail? {
      return;
    }
    o := StartConcurrentDownload(d);
  }
}
