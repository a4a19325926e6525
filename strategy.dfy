/** The event-level sliding-window strategy object: its configuration, set
    once by the constructor, and the extraction of training examples from
    windowed log data by nested loops that tally the severities of each
    sub-window in a dictionary. The extraction is proved to return exactly
    Features.ParsedLogData, whose properties module Features proves. */
module Strategy {
  import opened Wrappers
  import opened Features

  class EventLevelSlidingWindow {
    /** The severities tallied, in output order; the fourth labels. */
    var severities: seq<string>
    /** The name of the event field that holds the severity. */
    var severityKey: string

    ghost predicate Valid()
      reads this
    {
      |severities| >= 4
    }

    /** The configuration this object holds, as the specification takes it. */
    function Configuration(): Config
      reads this
    {
      Config(severities, severityKey)
    }

    /** An absent or empty severity list, and an absent or empty severity
        field name, fall back to the defaults INFO, WARN, ERROR, FATAL and
        SEVERITY. A non-empty list needs at least four entries. */
    constructor (severities: Option<seq<string>>, severityKeyword: Option<string>)
      requires severities.Some? && severities.value != [] ==> |severities.value| >= 4
      ensures Valid()
      ensures this.severities ==
                if severities.Some? && severities.value != [] then severities.value else DefaultSeverities
      ensures severityKey ==
                if severityKeyword.Some? && severityKeyword.value != "" then severityKeyword.value else DefaultSeverityKey
    {
      this.severities :=
        if severities.Some? && severities.value != [] then severities.value else DefaultSeverities;
      severityKey :=
        if severityKeyword.Some? && severityKeyword.value != "" then severityKeyword.value else DefaultSeverityKey;
    }

    /** Tallies one counted sub-window in a dictionary keyed by the four
        severities; the first event without the severity field raises a
        StrategyError, the first with an untracked severity a KeyError. */
    method CountSubWindow(subWindow: SubWindow) returns (r: Result<seq<nat>, ParseError>)
      requires Valid()
      ensures SubWindowError(Configuration(), subWindow).None? ==> r == Success(Tally(Configuration(), subWindow))
      ensures SubWindowError(Configuration(), subWindow).Some? ==> r == Failure(SubWindowError(Configuration(), subWindow).value)
    {
      var cfg := Configuration();
      var eventCounts := map[severities[0] := 0, severities[1] := 0, severities[2] := 0, severities[3] := 0];
      for e := 0 to |subWindow|
        invariant forall v :: v in eventCounts <==> IsTracked(cfg, v)
        invariant forall v :: v in eventCounts ==> eventCounts[v] == CountSeverity(subWindow[..e], severityKey, v)
        invariant forall k :: 0 <= k < e ==> EventOk(cfg, subWindow[k])
      {
        var logEvent := subWindow[e];
        if severityKey !in logEvent {
          SubWindowErrorAt(cfg, subWindow, e);
          return Failure(StrategyError(MissingKeyMessage(severityKey)));
        }
        var severity := logEvent[severityKey];
        if severity !in eventCounts {
          SubWindowErrorAt(cfg, subWindow, e);
          return Failure(KeyError(severity));
        }
        assert subWindow[..e + 1][..e] == subWindow[..e];
        eventCounts := eventCounts[severity := eventCounts[severity] + 1];
      }
      assert subWindow[..|subWindow|] == subWindow;
      SubWindowErrorNone(cfg, subWindow);
      return Success([eventCounts[severities[0]], eventCounts[severities[1]],
                      eventCounts[severities[2]], eventCounts[severities[3]]]);
    }

    /** Scans the held-out sub-window for an event of the fourth severity,
        stopping at the first one; an event read before it without the
        severity field raises a KeyError. */
    method ScanForFatal(last: SubWindow) returns (r: Result<bool, ParseError>)
      requires Valid()
      ensures r == LabelScan(Configuration(), last)
    {
      var cfg := Configuration();
      var foundFatalEvent := false;
      var e := 0;
      while e < |last|
        invariant e <= |last|
        invariant !foundFatalEvent
        invariant forall k :: 0 <= k < e ==> ScannedPast(cfg, last[k])
      {
        var logEvent := last[e];
        if severityKey !in logEvent {
          LabelScanSkips(cfg, last, e);
          return Failure(KeyError(severityKey));
        }
        if logEvent[severityKey] == severities[3] {
          foundFatalEvent := true;
          break;
        }
        e := e + 1;
      }
      LabelScanSkips(cfg, last, e);
      return Success(foundFatalEvent);
    }

    /** Turns one window into its training example: refuses a window with
        fewer than two sub-windows, tallies every sub-window but the last,
        then labels the example by scanning the last. */
    method ParseWindow(window: Window) returns (r: Result<Example, ParseError>)
      requires Valid()
      ensures r == WindowExample(Configuration(), window)
    {
      var cfg := Configuration();
      if |window| <= 1 {
        return Failure(StrategyError(SubWindowCountMessage(|window|)));
      }
      ghost var counted := window[..|window| - 1];
      var subWindowData: seq<seq<nat>> := [];
      for s := 0 to |window| - 1
        invariant |subWindowData| == s
        invariant forall k :: 0 <= k < s ==> subWindowData[k] == Tally(cfg, window[k])
        invariant forall k :: 0 <= k < s ==> SubWindowError(cfg, window[k]) == None
      {
        var counts := CountSubWindow(window[s]);
        if counts.Failure? {
          CountedSubWindowsErrorSkips(cfg, counted, s);
          assert counted[s..][0] == window[s];
          return Failure(counts.error);
        }
        subWindowData := subWindowData + [counts.value];
      }
      CountedSubWindowsErrorSkips(cfg, counted, |counted|);
      var foundFatalEvent := ScanForFatal(window[|window| - 1]);
      if foundFatalEvent.Failure? {
        return Failure(foundFatalEvent.error);
      }
      assert subWindowData == seq(|counted|, i requires 0 <= i < |counted| => Tally(cfg, counted[i]));
      return Success(Example(subWindowData, foundFatalEvent.value));
    }

    /** Turns each window into one training example, in order. No windows
        (None or an empty sequence) gives no examples; the first window that
        raises an error aborts the whole call with that error. */
    method ParseWindowedLogData(windowedLogData: Option<seq<Window>>)
      returns (r: Result<seq<Example>, ParseError>)
      requires Valid()
      ensures r == ParsedLogData(Configuration(), windowedLogData)
    {
      var cfg := Configuration();
      if windowedLogData.None? || |windowedLogData.value| <= 0 {
        return Success([]);
      }
      var windows := windowedLogData.value;
      var trainingData: seq<Example> := [];
      for w := 0 to |windows|
        invariant |trainingData| == w
        invariant forall k :: 0 <= k < w ==> WindowExample(cfg, windows[k]) == Success(trainingData[k])
      {
        var example := ParseWindow(windows[w]);
        if example.Failure? {
          FirstFailingWindowDecides(cfg, windows, w);
          return Failure(example.error);
        }
        trainingData := trainingData + [example.value];
      }
      ExamplesMeaning(cfg, windows);
      assert Examples(cfg, windows).value == trainingData;
      return Success(trainingData);
    }
  }
}
