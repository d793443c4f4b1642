/**
  Choosing how file changes are detected (`Watcher.prototype.polling`) and
  the options bundle handed to the underlying file watcher
  (`Watcher.prototype.buildOptions`). The asynchronous probe for the
  watchman daemon (`exec('watchman version')`) is an input: the promise it
  returned either resolved or rejected.
 */
module Strategy {
  import opened Base

  /** The watcher's `options` object; only its `watcher` field is consulted. */
  datatype Config = Config(watcher: Option<string>)

  const PollingWatcher: string := "polling"
  const EventsWatcher: string := "events"

  /** `options && options.watcher === 'polling'`: absent options mean events. */
  function Polling(options: Option<Config>): (usePolling: bool)
    ensures usePolling <==> options == Some(Config(Some(PollingWatcher)))
  {
    options.Some? && options.value.watcher == Some(PollingWatcher)
  }

  /** Polling is chosen exactly when the `watcher` option names it; nothing else selects it. */
  lemma PollingSelection(options: Option<Config>)
    ensures !Polling(None)
    ensures !Polling(Some(Config(Some(EventsWatcher))))
    ensures Polling(Some(Config(Some(PollingWatcher))))
    ensures Polling(options) ==> options == Some(Config(Some(PollingWatcher)))
  {
  }

  /** How the promise returned by the watchman probe settled. */
  datatype Probe = ProbeResolved | ProbeRejected

  /** How a promise settled: with a value, or rejected. */
  datatype Settled<+T> = Resolved(value: T) | Rejected

  /** The options object passed to the file watcher. */
  datatype WatchOptions = WatchOptions(polling: bool, verbose: bool, watchman: bool)

  /**
    `buildOptions()`: with polling selected the watchman probe is not
    awaited and watchman is off; otherwise watchman is on exactly when the
    probe resolved. A rejected probe is caught, so the promise returned
    always resolves.
   */
  function BuildOptions(polling: bool, verbose: bool, probe: Probe): (r: Settled<WatchOptions>)
    ensures r.Resolved?
    ensures r.value.polling == polling
    ensures r.value.verbose == verbose
    ensures r.value.watchman <==> !polling && probe == ProbeResolved
    ensures !(r.value.polling && r.value.watchman)
  {
    if polling then
      Resolved(WatchOptions(true, verbose, false))
    else
      var watchman := match probe
        case ProbeResolved => true
        case ProbeRejected => false;
      Resolved(WatchOptions(false, verbose, watchman))
  }

  /** With polling selected the probe's outcome has no influence: it is never consulted. */
  lemma ProbeIgnoredWhenPolling(verbose: bool, p: Probe, q: Probe)
    ensures BuildOptions(true, verbose, p) == BuildOptions(true, verbose, q)
  {
  }

  /** The four option bundles the `buildOptions` tests expect. */
  lemma BuildOptionsExamples()
    ensures BuildOptions(true, true, ProbeRejected) == Resolved(WatchOptions(true, true, false))
    ensures BuildOptions(false, true, ProbeRejected) == Resolved(WatchOptions(false, true, false))
    ensures BuildOptions(false, true, ProbeResolved) == Resolved(WatchOptions(false, true, true))
    ensures BuildOptions(false, false, ProbeResolved) == Resolved(WatchOptions(false, false, true))
  {
  }
}
