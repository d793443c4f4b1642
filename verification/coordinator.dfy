/**
  The watch coordinator's event handling. A session is the append-only
  record of what the watcher has produced so far: the lines written to the
  user interface, the `track`, `trackTiming` and `trackError` payloads, and
  whether the latest outcome was an error. `change` and `error` events
  from the file watcher are handled one at a time, in delivery order.
 */
module Coordinator {
  import opened Base
  import opened Terminal
  import opened Analytics
  import opened Report

  datatype Status = Watching | WatchingWithError

  datatype Session = Session(
    written: seq<seq<Sym>>,
    tracks: seq<Track>,
    timings: seq<Timing>,
    trackErrors: seq<TrackedError>,
    status: Status)

  /** Every line written so far is free of separators, so `split` recovers it. */
  predicate Valid(s: Session) {
    forall k :: 0 <= k < |s.written| ==> LineBreakFree(s.written[k])
  }

  const Fresh: Session := Session([], [], [], [], Watching)

  /** The user interface's accumulated output (`ui.output`). */
  function Output(s: Session): seq<Sym> {
    Render(s.written)
  }

  datatype Event = Change(totalTime: nat) | Failure(error: BuildError)

  /** Handling a `change` event: report the finished rebuild. */
  function DidChange(s: Session, totalTime: nat): (r: Session)
    ensures Output(r) == Output(s) + [Eol] + Paint(Green, SuccessText(Millis(totalTime))) + [Eol]
    ensures r.tracks == s.tracks + [RebuildTrack(Millis(totalTime))]
    ensures r.timings == s.timings + [RebuildTiming(Millis(totalTime))]
    ensures r.trackErrors == s.trackErrors
    ensures r.status == Watching
    ensures Valid(s) ==> Valid(r)
  {
    var ms := Millis(totalTime);
    var report := ReportChange(totalTime);
    assert report.track == RebuildTrack(ms) && report.timing == RebuildTiming(ms);
    RenderAppend(s.written, report.lines);
    Session(s.written + report.lines, s.tracks + [report.track], s.timings + [report.timing],
            s.trackErrors, Watching)
  }

  /** Handling an `error` event (`didError`): report the failed build. */
  function DidError(s: Session, e: BuildError): (r: Session)
    ensures Output(r) == Output(s) + Render(ReportError(e).lines)
    ensures r.tracks == s.tracks
    ensures r.timings == s.timings
    ensures r.trackErrors == s.trackErrors + [TrackedError(e.message)]
    ensures r.status == WatchingWithError
    ensures Valid(s) ==> Valid(r)
  {
    var report := ReportError(e);
    RenderAppend(s.written, report.lines);
    Session(s.written + report.lines, s.tracks, s.timings, s.trackErrors + [report.tracked],
            WatchingWithError)
  }

  function Step(s: Session, ev: Event): Session {
    match ev
    case Change(t) => DidChange(s, t)
    case Failure(e) => DidError(s, e)
  }

  /**
    Handling `events` in order. Every log only grows, and the status
    reflects the most recent event alone.
   */
  function Replay(s: Session, events: seq<Event>): (r: Session)
    ensures |s.written| <= |r.written| && r.written[..|s.written|] == s.written
    ensures |s.tracks| <= |r.tracks| && r.tracks[..|s.tracks|] == s.tracks
    ensures |s.timings| <= |r.timings| && r.timings[..|s.timings|] == s.timings
    ensures |s.trackErrors| <= |r.trackErrors| && r.trackErrors[..|s.trackErrors|] == s.trackErrors
    ensures |events| == 0 ==> r == s
    ensures |events| > 0 ==> (r.status == WatchingWithError <==> events[|events| - 1].Failure?)
    ensures Valid(s) ==> Valid(r)
    decreases |events|
  {
    if |events| == 0 then s
    else Step(Replay(s, events[..|events| - 1]), events[|events| - 1])
  }

  /** The durations of the `change` events, in order. */
  function ChangeTimes(events: seq<Event>): seq<nat>
    decreases |events|
  {
    if |events| == 0 then []
    else
      var init := ChangeTimes(events[..|events| - 1]);
      match events[|events| - 1]
      case Change(t) => init + [t]
      case Failure(_) => init
  }

  /** The messages of the `error` events, in order. */
  function ErrorMessages(events: seq<Event>): seq<string>
    decreases |events|
  {
    if |events| == 0 then []
    else
      var init := ErrorMessages(events[..|events| - 1]);
      match events[|events| - 1]
      case Change(_) => init
      case Failure(e) => init + [e.message]
  }

  function RebuildTracks(times: seq<nat>): (tracks: seq<Track>)
    ensures |tracks| == |times|
  {
    seq(|times|, i requires 0 <= i < |times| => RebuildTrack(Millis(times[i])))
  }

  function RebuildTimings(times: seq<nat>): (timings: seq<Timing>)
    ensures |timings| == |times|
  {
    seq(|times|, i requires 0 <= i < |times| => RebuildTiming(Millis(times[i])))
  }

  function Descriptions(messages: seq<string>): (errors: seq<TrackedError>)
    ensures |errors| == |messages|
  {
    seq(|messages|, i requires 0 <= i < |messages| => TrackedError(messages[i]))
  }

  /** One step adds to the analytics logs exactly what its event contributes. */
  lemma StepAnalytics(s: Session, ev: Event)
    ensures Step(s, ev).tracks == s.tracks + RebuildTracks(ChangeTimes([ev]))
    ensures Step(s, ev).timings == s.timings + RebuildTimings(ChangeTimes([ev]))
    ensures Step(s, ev).trackErrors == s.trackErrors + Descriptions(ErrorMessages([ev]))
  {
    var one := [ev];
    assert one[..|one| - 1] == [] && one[|one| - 1] == ev;
    match ev
    case Change(t) =>
      assert ChangeTimes(one) == [t];
      assert ErrorMessages(one) == [];
      assert RebuildTracks([t]) == [RebuildTrack(Millis(t))];
      assert RebuildTimings([t]) == [RebuildTiming(Millis(t))];
    case Failure(e) =>
      assert ChangeTimes(one) == [];
      assert ErrorMessages(one) == [e.message];
      assert Descriptions([e.message]) == [TrackedError(e.message)];
  }

  /** Each reference log of `events` is that of all but the last event, then that of the last. */
  lemma ReferenceLogsSnoc(events: seq<Event>)
    requires |events| > 0
    ensures var init, last := events[..|events| - 1], [events[|events| - 1]];
      && RebuildTracks(ChangeTimes(events)) == RebuildTracks(ChangeTimes(init)) + RebuildTracks(ChangeTimes(last))
      && RebuildTimings(ChangeTimes(events)) == RebuildTimings(ChangeTimes(init)) + RebuildTimings(ChangeTimes(last))
      && Descriptions(ErrorMessages(events)) == Descriptions(ErrorMessages(init)) + Descriptions(ErrorMessages(last))
  {
    assert [events[|events| - 1]][..0] == [];
  }

  /** `track` receives one payload per `change` event, in order, and none for an error. */
  lemma {:induction false} ReplayTracks(s: Session, events: seq<Event>)
    ensures Replay(s, events).tracks == s.tracks + RebuildTracks(ChangeTimes(events))
    decreases |events|
  {
    if |events| > 0 {
      var init, last := events[..|events| - 1], events[|events| - 1];
      ReplayTracks(s, init);
      StepAnalytics(Replay(s, init), last);
      ReferenceLogsSnoc(events);
    }
  }

  /** `trackTiming` receives one payload per `change` event, in order, and none for an error. */
  lemma {:induction false} ReplayTimings(s: Session, events: seq<Event>)
    ensures Replay(s, events).timings == s.timings + RebuildTimings(ChangeTimes(events))
    decreases |events|
  {
    if |events| > 0 {
      var init, last := events[..|events| - 1], events[|events| - 1];
      ReplayTimings(s, init);
      StepAnalytics(Replay(s, init), last);
      ReferenceLogsSnoc(events);
    }
  }

  /** `trackError` receives exactly the messages of the `error` events, in order. */
  lemma {:induction false} ReplayTrackErrors(s: Session, events: seq<Event>)
    ensures Replay(s, events).trackErrors == s.trackErrors + Descriptions(ErrorMessages(events))
    decreases |events|
  {
    if |events| > 0 {
      var init, last := events[..|events| - 1], events[|events| - 1];
      ReplayTrackErrors(s, init);
      StepAnalytics(Replay(s, init), last);
      ReferenceLogsSnoc(events);
    }
  }

  /**
    Over any sequence of events, `track` and `trackTiming` receive one
    payload per `change` event and nothing for an `error` event, and
    `trackError` receives exactly the error messages, all in delivery order.
   */
  lemma ReplayAnalytics(s: Session, events: seq<Event>)
    ensures Replay(s, events).tracks == s.tracks + RebuildTracks(ChangeTimes(events))
    ensures Replay(s, events).timings == s.timings + RebuildTimings(ChangeTimes(events))
    ensures Replay(s, events).trackErrors == s.trackErrors + Descriptions(ErrorMessages(events))
  {
    ReplayTracks(s, events);
    ReplayTimings(s, events);
    ReplayTrackErrors(s, events);
  }

  /**
    An error does not hold back the next success: after any error, a
    rebuild is reported and tracked exactly as it would have been without
    the error, and the error flag is cleared.
   */
  lemma ChangeAfterError(s: Session, e: BuildError, totalTime: nat)
    requires Valid(s)
    ensures DidChange(DidError(s, e), totalTime).tracks == DidChange(s, totalTime).tracks
    ensures DidChange(DidError(s, e), totalTime).timings == DidChange(s, totalTime).timings
    ensures DidChange(DidError(s, e), totalTime).status == Watching
    ensures Paint(Green, SuccessText(Millis(totalTime))) in Split(Output(DidChange(DidError(s, e), totalTime)))
  {
    var r := DidChange(DidError(s, e), totalTime);
    var success := Paint(Green, SuccessText(Millis(totalTime)));
    SplitRender(r.written);
    assert r.written[|r.written| - 1] == success;
  }

  // ---------------------------------------------------------------------
  // The scenarios the watcher's unit tests exercise, on a fresh session.
  // ---------------------------------------------------------------------

  /** A single `change` event of 12344000000 ns. */
  lemma ChangeScenario()
    ensures DidChange(Fresh, 12344000000).tracks
         == [Track("ember rebuild", "broccoli rebuild time: 12344ms")]
    ensures DidChange(Fresh, 12344000000).timings
         == [Timing("rebuild", "rebuild time", "broccoli rebuild time", 12344)]
    ensures Output(DidChange(Fresh, 12344000000))
         == [Eol] + Paint(Green, "Build successful - 12344ms.") + [Eol]
  {
    ChangeReportExample();
  }

  /** A plain `error` event is tracked by its message alone, whatever its stack. */
  lemma ErrorTrackingScenario(stack: string)
    ensures DidError(Fresh, BuildError("foo", None, None, None, Some(stack))).trackErrors
         == [TrackedError("foo")]
  {
  }

  /** The first two output lines of `didError` on a build error in `someFile`. */
  lemma ErrorOutputScenario(line: Option<Positive>, col: Option<Positive>)
    ensures
      var outs := Split(Output(DidError(Fresh, BuildError("buildFailed", Some("someFile"), line, col, None))));
      && |outs| == 3
      && outs[0] == Paint(Red, FileLine("someFile", line, col))
      && outs[1] == Paint(Red, "buildFailed")
  {
    var r := DidError(Fresh, BuildError("buildFailed", Some("someFile"), line, col, None));
    SplitRender(r.written);
    assert Text(r.written[0]) == FileLine("someFile", line, col);
    assert Text(r.written[1]) == "buildFailed";
  }

  /** An `error` event, then a `change` event. */
  lemma ChangeAfterErrorScenario(stack: string)
    ensures
      var r := Replay(Fresh, [Failure(BuildError("foo", None, None, None, Some(stack))), Change(12344000000)]);
      && Paint(Green, "Build successful - 12344ms.") in Split(Output(r))
      && r.tracks == [Track("ember rebuild", "broccoli rebuild time: 12344ms")]
      && r.trackErrors == [TrackedError("foo")]
      && r.status == Watching
  {
    var e := BuildError("foo", None, None, None, Some(stack));
    var events := [Failure(e), Change(12344000000)];
    assert events[..1] == [Failure(e)] && events[..1][..0] == [];
    assert Replay(Fresh, events[..1]) == DidError(Fresh, e);
    var r := DidChange(DidError(Fresh, e), 12344000000);
    assert Replay(Fresh, events) == r;
    ChangeAfterError(Fresh, e, 12344000000);
    ChangeScenario();
    ChangeReportExample();
    assert r.tracks == DidChange(Fresh, 12344000000).tracks;
  }
}
