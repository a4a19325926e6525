/** What the event-level sliding-window strategy extracts from log data that
    is already divided into windows: one training example per window, made of
    one severity-count tuple per sub-window except the last, followed by a
    label saying whether the held-out last sub-window holds a fatal event.
    Everything here is a pure function of the configuration and the input;
    the imperative extractor in module Strategy is proved equal to
    ParsedLogData. */
module Features {
  import opened Wrappers

  /** A log event: field name to value. */
  type Event = map<string, string>

  /** A sub-window: its events in chronological order. */
  type SubWindow = seq<Event>

  /** A window: its sub-windows in chronological order. */
  type Window = seq<SubWindow>

  /** What extraction can raise. StrategyError is the strategy's own
      exception; KeyError is the dictionary lookup failure that escapes
      when a severity value is not one of the tracked four, or when an event
      of the held-out sub-window has no severity field. */
  datatype ParseError =
    | StrategyError(message: string)
    | KeyError(key: string)

  /** One training example: the count tuples, then the label. */
  datatype Example = Example(counts: seq<seq<nat>>, foundFatal: bool)

  /** The strategy's configuration: the severities it tracks (only the first
      four are used; the fourth is the one that labels an example) and the
      name of the field that holds an event's severity. */
  datatype Config = Config(severities: seq<string>, severityKey: string) {
    predicate Valid() { |severities| >= 4 }
  }

  const DefaultSeverities: seq<string> := ["INFO", "WARN", "ERROR", "FATAL"]
  const DefaultSeverityKey: string := "SEVERITY"

  // ---------------------------------------------------------------------
  // Error messages

  function MissingKeyMessage(key: string): string {
    "Error parsing windowed log data, could not find " + key + " field!"
  }

  function SubWindowCountMessage(n: nat): string {
    "Error parsing windowed log data, found window with " + NatToString(n) + " sub-windows!"
  }

  predicate IsDigits(s: string) {
    forall i :: 0 <= i < |s| ==> '0' <= s[i] <= '9'
  }

  function DigitChar(d: nat): (c: char)
    requires d < 10
  {
    ('0' as int + d) as char
  }

  /** Decimal rendering of a natural number, as Python's `%d` gives it. */
  function NatToString(n: nat): (r: string)
    ensures |r| >= 1 && IsDigits(r)
    ensures n < 10 <==> |r| == 1
    decreases n
  {
    if n < 10 then [DigitChar(n)] else NatToString(n / 10) + [DigitChar(n % 10)]
  }

  /** The number a string of decimal digits denotes. */
  function DigitsValue(s: string): nat
    requires IsDigits(s)
  {
    if |s| == 0 then 0
    else DigitsValue(s[..|s| - 1]) * 10 + (s[|s| - 1] as int - '0' as int)
  }

  /** Reading NatToString's output back as a decimal gives the number again. */
  lemma {:induction false} NatToStringRoundTrip(n: nat)
    ensures DigitsValue(NatToString(n)) == n
    decreases n
  {
    if n >= 10 {
      var p := NatToString(n / 10);
      var s := p + [DigitChar(n % 10)];
      assert s[..|s| - 1] == p;
      NatToStringRoundTrip(n / 10);
    }
  }

  // ---------------------------------------------------------------------
  // Counting

  /** Does event `e` carry field `key` with value `v`? */
  predicate HasSeverity(e: Event, key: string, v: string) {
    key in e && e[key] == v
  }

  /** The number of events of `sub` whose `key` field equals `v`. */
  function CountSeverity(sub: SubWindow, key: string, v: string): nat {
    if |sub| == 0 then 0
    else CountSeverity(sub[..|sub| - 1], key, v) + (if HasSeverity(sub[|sub| - 1], key, v) then 1 else 0)
  }

  /** The positions in `sub` of the events whose `key` field equals `v`. */
  function MatchingPositions(sub: SubWindow, key: string, v: string): set<nat> {
    set j: nat | j < |sub| && HasSeverity(sub[j], key, v)
  }

  /** CountSeverity counts exactly the events that carry severity `v`. */
  lemma {:induction false} CountSeverityIsCardinality(sub: SubWindow, key: string, v: string)
    ensures CountSeverity(sub, key, v) == |MatchingPositions(sub, key, v)|
  {
    if |sub| > 0 {
      var n := |sub| - 1;
      var front := sub[..n];
      CountSeverityIsCardinality(front, key, v);
      var before := MatchingPositions(front, key, v);
      var last: set<nat> := if HasSeverity(sub[n], key, v) then {n} else {};
      forall j: nat
        ensures j in MatchingPositions(sub, key, v) <==> j in before + last
      {
        if j < n {
          assert front[j] == sub[j];
        }
      }
      assert MatchingPositions(sub, key, v) == before + last;
      assert before !! last;
    }
  }

  /** Is `v` one of the four tracked severities? */
  predicate IsTracked(cfg: Config, v: string)
    requires cfg.Valid()
  {
    v == cfg.severities[0] || v == cfg.severities[1] || v == cfg.severities[2] || v == cfg.severities[3]
  }

  /** Can event `e` be tallied without raising: it has the severity field
      and its value is one of the tracked severities. */
  predicate EventOk(cfg: Config, e: Event)
    requires cfg.Valid()
  {
    cfg.severityKey in e && IsTracked(cfg, e[cfg.severityKey])
  }

  /** What tallying an event that is not EventOk raises. */
  function EventError(cfg: Config, e: Event): ParseError
    requires cfg.Valid() && !EventOk(cfg, e)
  {
    if cfg.severityKey !in e then StrategyError(MissingKeyMessage(cfg.severityKey))
    else KeyError(e[cfg.severityKey])
  }

  /** The count tuple of one sub-window, in the configured severity order. */
  function Tally(cfg: Config, sub: SubWindow): seq<nat>
    requires cfg.Valid()
  {
    var key := cfg.severityKey;
    [CountSeverity(sub, key, cfg.severities[0]), CountSeverity(sub, key, cfg.severities[1]),
     CountSeverity(sub, key, cfg.severities[2]), CountSeverity(sub, key, cfg.severities[3])]
  }

  predicate DistinctSeverities(cfg: Config)
    requires cfg.Valid()
  {
    forall i, j :: 0 <= i < j < 4 ==> cfg.severities[i] != cfg.severities[j]
  }

  /** When the four severities differ and every event carries one of them,
      the four counts of a sub-window add up to its number of events. */
  lemma {:induction false} TallySumsToLength(cfg: Config, sub: SubWindow)
    requires cfg.Valid() && DistinctSeverities(cfg)
    requires forall k :: 0 <= k < |sub| ==> EventOk(cfg, sub[k])
    ensures var t := Tally(cfg, sub); t[0] + t[1] + t[2] + t[3] == |sub|
  {
    if |sub| > 0 {
      var n := |sub| - 1;
      assert forall k :: 0 <= k < n ==> sub[..n][k] == sub[k];
      TallySumsToLength(cfg, sub[..n]);
      assert EventOk(cfg, sub[n]);
    }
  }

  // ---------------------------------------------------------------------
  // Scanning for errors

  /** The error that tallying sub-window `sub` raises, if any: that of its
      first event which is not EventOk. */
  function SubWindowError(cfg: Config, sub: SubWindow): Option<ParseError>
    requires cfg.Valid()
  {
    if |sub| == 0 then None
    else if !EventOk(cfg, sub[0]) then Some(EventError(cfg, sub[0]))
    else SubWindowError(cfg, sub[1..])
  }

  /** Events that tally without error can be skipped by the scan. */
  lemma {:induction false} SubWindowErrorSkips(cfg: Config, sub: SubWindow, j: nat)
    requires cfg.Valid() && j <= |sub|
    requires forall k :: 0 <= k < j ==> EventOk(cfg, sub[k])
    ensures SubWindowError(cfg, sub) == SubWindowError(cfg, sub[j..])
  {
    if j > 0 {
      assert sub[1..][j - 1..] == sub[j..];
      SubWindowErrorSkips(cfg, sub[1..], j - 1);
    }
  }

  /** A sub-window tallies without error exactly when every event in it is
      EventOk. */
  lemma {:induction false} SubWindowErrorNone(cfg: Config, sub: SubWindow)
    requires cfg.Valid()
    ensures SubWindowError(cfg, sub) == None <==> forall k :: 0 <= k < |sub| ==> EventOk(cfg, sub[k])
  {
    if |sub| > 0 {
      SubWindowErrorNone(cfg, sub[1..]);
      assert forall k :: 1 <= k < |sub| ==> sub[k] == sub[1..][k - 1];
    }
  }

  /** The first event that is not EventOk decides the sub-window's error. */
  lemma SubWindowErrorAt(cfg: Config, sub: SubWindow, j: nat)
    requires cfg.Valid() && j < |sub|
    requires forall k :: 0 <= k < j ==> EventOk(cfg, sub[k])
    requires !EventOk(cfg, sub[j])
    ensures SubWindowError(cfg, sub) == Some(EventError(cfg, sub[j]))
  {
    SubWindowErrorSkips(cfg, sub, j);
    assert sub[j..][0] == sub[j];
  }

  /** The error that tallying the counted sub-windows `subs` raises, if any:
      they are tallied in order, so the first sub-window with an error
      decides it. */
  function CountedSubWindowsError(cfg: Config, subs: seq<SubWindow>): Option<ParseError>
    requires cfg.Valid()
  {
    if |subs| == 0 then None
    else if SubWindowError(cfg, subs[0]).Some? then SubWindowError(cfg, subs[0])
    else CountedSubWindowsError(cfg, subs[1..])
  }

  lemma {:induction false} CountedSubWindowsErrorSkips(cfg: Config, subs: seq<SubWindow>, i: nat)
    requires cfg.Valid() && i <= |subs|
    requires forall k :: 0 <= k < i ==> SubWindowError(cfg, subs[k]) == None
    ensures CountedSubWindowsError(cfg, subs) == CountedSubWindowsError(cfg, subs[i..])
  {
    if i > 0 {
      assert subs[1..][i - 1..] == subs[i..];
      CountedSubWindowsErrorSkips(cfg, subs[1..], i - 1);
    }
  }

  /** Predicate: every event of every sub-window in `subs` is EventOk. */
  predicate AllEventsOk(cfg: Config, subs: seq<SubWindow>)
    requires cfg.Valid()
  {
    forall i, k :: 0 <= i < |subs| && 0 <= k < |subs[i]| ==> EventOk(cfg, subs[i][k])
  }

  /** The counted sub-windows tally without error exactly when all their
      events are EventOk. */
  lemma {:induction false} CountedSubWindowsErrorNone(cfg: Config, subs: seq<SubWindow>)
    requires cfg.Valid()
    ensures CountedSubWindowsError(cfg, subs) == None <==> AllEventsOk(cfg, subs)
  {
    if |subs| > 0 {
      SubWindowErrorNone(cfg, subs[0]);
      CountedSubWindowsErrorNone(cfg, subs[1..]);
      assert forall i :: 1 <= i < |subs| ==> subs[i] == subs[1..][i - 1];
      if AllEventsOk(cfg, subs[1..]) && SubWindowError(cfg, subs[0]) == None {
        forall i, k | 0 <= i < |subs| && 0 <= k < |subs[i]|
          ensures EventOk(cfg, subs[i][k])
        {
          if i > 0 {
            assert subs[i] == subs[1..][i - 1];
          }
        }
      }
    }
  }

  /** Scanning in order, sub-window by sub-window and event by event, the
      first event that is not EventOk decides the error. */
  lemma CountedSubWindowsErrorAt(cfg: Config, subs: seq<SubWindow>, i: nat, j: nat)
    requires cfg.Valid() && i < |subs| && j < |subs[i]|
    requires AllEventsOk(cfg, subs[..i])
    requires forall k :: 0 <= k < j ==> EventOk(cfg, subs[i][k])
    requires !EventOk(cfg, subs[i][j])
    ensures CountedSubWindowsError(cfg, subs) == Some(EventError(cfg, subs[i][j]))
  {
    forall m | 0 <= m < i
      ensures SubWindowError(cfg, subs[m]) == None
    {
      assert subs[..i][m] == subs[m];
      SubWindowErrorNone(cfg, subs[m]);
    }
    CountedSubWindowsErrorSkips(cfg, subs, i);
    SubWindowErrorAt(cfg, subs[i], j);
    assert subs[i..][0] == subs[i];
  }

  // ---------------------------------------------------------------------
  // The label

  /** Does event `e` have the labelling (fourth) severity? */
  predicate IsFatal(cfg: Config, e: Event)
    requires cfg.Valid()
  {
    HasSeverity(e, cfg.severityKey, cfg.severities[3])
  }

  /** Does the held-out sub-window `last` contain an event of the labelling
      severity? */
  predicate HasFatal(cfg: Config, last: SubWindow)
    requires cfg.Valid()
  {
    exists j :: 0 <= j < |last| && IsFatal(cfg, last[j])
  }

  /** An event the label scan reads and moves past: it has the severity
      field and its value is not the labelling severity. */
  predicate ScannedPast(cfg: Config, e: Event)
    requires cfg.Valid()
  {
    cfg.severityKey in e && e[cfg.severityKey] != cfg.severities[3]
  }

  /** The scan of the held-out sub-window: events in order until the first
      one of the labelling severity; an event read before that without the
      severity field raises a KeyError. */
  function LabelScan(cfg: Config, last: SubWindow): Result<bool, ParseError>
    requires cfg.Valid()
  {
    if |last| == 0 then Success(false)
    else if cfg.severityKey !in last[0] then Failure(KeyError(cfg.severityKey))
    else if last[0][cfg.severityKey] == cfg.severities[3] then Success(true)
    else LabelScan(cfg, last[1..])
  }

  lemma {:induction false} LabelScanSkips(cfg: Config, last: SubWindow, j: nat)
    requires cfg.Valid() && j <= |last|
    requires forall k :: 0 <= k < j ==> ScannedPast(cfg, last[k])
    ensures LabelScan(cfg, last) == LabelScan(cfg, last[j..])
  {
    if j > 0 {
      assert last[1..][j - 1..] == last[j..];
      LabelScanSkips(cfg, last[1..], j - 1);
    }
  }

  /** The label scan fails at position `j`: the event there has no severity
      field and every event before it was read and moved past. */
  predicate LabelScanFailsAt(cfg: Config, last: SubWindow, j: int)
    requires cfg.Valid()
  {
    0 <= j < |last| && cfg.severityKey !in last[j]
    && forall k :: 0 <= k < j ==> ScannedPast(cfg, last[k])
  }

  /** When the label scan succeeds, its answer is whether the held-out
      sub-window has an event of the labelling severity; it fails, always
      with a KeyError naming the severity field, exactly when an event
      without that field comes before every labelling event. */
  lemma {:induction false} LabelScanMeaning(cfg: Config, last: SubWindow)
    requires cfg.Valid()
    ensures LabelScan(cfg, last).Success? ==> LabelScan(cfg, last).value == HasFatal(cfg, last)
    ensures LabelScan(cfg, last).Failure? <==> exists j :: LabelScanFailsAt(cfg, last, j)
    ensures LabelScan(cfg, last).Failure? ==> LabelScan(cfg, last).error == KeyError(cfg.severityKey)
  {
    if |last| == 0 {
      assert !exists j :: LabelScanFailsAt(cfg, last, j);
    } else if cfg.severityKey !in last[0] {
      assert LabelScanFailsAt(cfg, last, 0);
    } else if last[0][cfg.severityKey] == cfg.severities[3] {
      assert IsFatal(cfg, last[0]);
      forall j | 0 <= j < |last| ensures !LabelScanFailsAt(cfg, last, j) {
        if j > 0 {
          assert !ScannedPast(cfg, last[0]);
        }
      }
    } else {
      var rest := last[1..];
      LabelScanMeaning(cfg, rest);
      assert forall j :: 1 <= j < |last| ==> last[j] == rest[j - 1];
      if HasFatal(cfg, last) {
        var j :| 0 <= j < |last| && IsFatal(cfg, last[j]);
        assert j > 0 && IsFatal(cfg, rest[j - 1]);
      }
      if exists j :: LabelScanFailsAt(cfg, last, j) {
        var j :| LabelScanFailsAt(cfg, last, j);
        assert LabelScanFailsAt(cfg, rest, j - 1);
      }
      if exists j :: LabelScanFailsAt(cfg, rest, j) {
        var j :| LabelScanFailsAt(cfg, rest, j);
        assert LabelScanFailsAt(cfg, last, j + 1);
      }
    }
  }

  // ---------------------------------------------------------------------
  // One window, and a sequence of windows

  /** The example extracted from one window, or the error it raises: a
      window with fewer than two sub-windows is refused before any event is
      read; then the counted sub-windows are tallied; then the held-out one
      is scanned for the label. */
  function WindowExample(cfg: Config, w: Window): Result<Example, ParseError>
    requires cfg.Valid()
  {
    if |w| <= 1 then Failure(StrategyError(SubWindowCountMessage(|w|)))
    else
      var counted := w[..|w| - 1];
      var countError := CountedSubWindowsError(cfg, counted);
      if countError.Some? then Failure(countError.value)
      else
        var scan := LabelScan(cfg, w[|w| - 1]);
        if scan.Failure? then Failure(scan.error)
        else Success(Example(seq(|counted|, i requires 0 <= i < |counted| => Tally(cfg, counted[i])), scan.value))
  }

  /** The examples of a sequence of windows, in order, or the error of the
      first window that raises one. */
  function Examples(cfg: Config, ws: seq<Window>): Result<seq<Example>, ParseError>
    requires cfg.Valid()
  {
    if |ws| == 0 then Success([])
    else
      var first := WindowExample(cfg, ws[0]);
      if first.Failure? then Failure(first.error)
      else
        var rest := Examples(cfg, ws[1..]);
        if rest.Failure? then Failure(rest.error)
        else Success([first.value] + rest.value)
  }

  /** What parsing windowed log data yields: nothing to parse (None) gives no
      examples, like an empty sequence of windows. */
  function ParsedLogData(cfg: Config, windowedLogData: Option<seq<Window>>): Result<seq<Example>, ParseError>
    requires cfg.Valid()
  {
    if windowedLogData.None? then Success([]) else Examples(cfg, windowedLogData.value)
  }

  // ---------------------------------------------------------------------
  // Properties of one window

  /** A window yields an example exactly when it has at least two
      sub-windows, every event of its counted sub-windows is EventOk and the
      label scan of its held-out sub-window succeeds. The example then has
      one four-entry count tuple per counted sub-window, entry k counting
      the events of severity k, and its label says whether the held-out
      sub-window has an event of the labelling severity. */
  lemma WindowExampleMeaning(cfg: Config, w: Window)
    requires cfg.Valid()
    ensures WindowExample(cfg, w).Success? <==>
              |w| >= 2 && AllEventsOk(cfg, w[..|w| - 1]) && LabelScan(cfg, w[|w| - 1]).Success?
    ensures WindowExample(cfg, w).Success? ==>
              var x := WindowExample(cfg, w).value;
              && |x.counts| == |w| - 1
              && (forall i :: 0 <= i < |w| - 1 ==> x.counts[i] == Tally(cfg, w[i]) && |x.counts[i]| == 4)
              && (forall i, k :: 0 <= i < |w| - 1 && 0 <= k < 4 ==>
                    x.counts[i][k] == |MatchingPositions(w[i], cfg.severityKey, cfg.severities[k])|)
              && x.foundFatal == HasFatal(cfg, w[|w| - 1])
  {
    if |w| >= 2 {
      CountedSubWindowsErrorNone(cfg, w[..|w| - 1]);
      LabelScanMeaning(cfg, w[|w| - 1]);
      forall i, k | 0 <= i < |w| - 1 && 0 <= k < 4
        ensures Tally(cfg, w[i])[k] == |MatchingPositions(w[i], cfg.severityKey, cfg.severities[k])|
      {
        CountSeverityIsCardinality(w[i], cfg.severityKey, cfg.severities[k]);
      }
    }
  }

  /** With four distinct severities, each count tuple of an example adds up
      to the number of events in its sub-window: an example is only produced
      when every counted event has one of the four severities. */
  lemma CountTuplesSumToLengths(cfg: Config, w: Window)
    requires cfg.Valid() && DistinctSeverities(cfg)
    requires WindowExample(cfg, w).Success?
    ensures var x := WindowExample(cfg, w).value;
            forall i :: 0 <= i < |w| - 1 ==>
              x.counts[i][0] + x.counts[i][1] + x.counts[i][2] + x.counts[i][3] == |w[i]|
  {
    WindowExampleMeaning(cfg, w);
    forall i | 0 <= i < |w| - 1
      ensures var t := Tally(cfg, w[i]); t[0] + t[1] + t[2] + t[3] == |w[i]|
    {
      assert w[..|w| - 1][i] == w[i];
      TallySumsToLength(cfg, w[i]);
    }
  }

  /** A window with no sub-window or a single one is refused with a
      StrategyError that gives its number of sub-windows. */
  lemma TooFewSubWindows(cfg: Config, w: Window)
    requires cfg.Valid() && |w| <= 1
    ensures WindowExample(cfg, w) == Failure(StrategyError(
              "Error parsing windowed log data, found window with "
              + (if |w| == 0 then "0" else "1") + " sub-windows!"))
  {
  }

  /** In a counted sub-window, an event that is not EventOk and that comes
      first in scan order aborts the window: with a StrategyError naming the
      severity field when the field is missing, and with a KeyError carrying
      the value when the value is not a tracked severity. */
  lemma BadCountedEventAborts(cfg: Config, w: Window, i: nat, j: nat)
    requires cfg.Valid() && 2 <= |w| && i < |w| - 1 && j < |w[i]|
    requires AllEventsOk(cfg, w[..i])
    requires forall k :: 0 <= k < j ==> EventOk(cfg, w[i][k])
    requires !EventOk(cfg, w[i][j])
    ensures cfg.severityKey !in w[i][j] ==>
              WindowExample(cfg, w) == Failure(StrategyError(
                "Error parsing windowed log data, could not find " + cfg.severityKey + " field!"))
    ensures cfg.severityKey in w[i][j] ==>
              WindowExample(cfg, w) == Failure(KeyError(w[i][j][cfg.severityKey]))
  {
    var counted := w[..|w| - 1];
    assert counted[..i] == w[..i];
    CountedSubWindowsErrorAt(cfg, counted, i, j);
  }

  /** The held-out sub-window never contributes to a count, and the other
      sub-windows never affect the label: two windows that succeed have the
      same counts when they agree on all but the held-out sub-window, and the
      same label when they agree on the held-out sub-window. */
  lemma HeldOutSubWindowOnlyLabels(cfg: Config, w1: Window, w2: Window)
    requires cfg.Valid()
    requires WindowExample(cfg, w1).Success? && WindowExample(cfg, w2).Success?
    ensures w1[..|w1| - 1] == w2[..|w2| - 1] ==>
              WindowExample(cfg, w1).value.counts == WindowExample(cfg, w2).value.counts
    ensures w1[|w1| - 1] == w2[|w2| - 1] ==>
              WindowExample(cfg, w1).value.foundFatal == WindowExample(cfg, w2).value.foundFatal
  {
    WindowExampleMeaning(cfg, w1);
    WindowExampleMeaning(cfg, w2);
    var c1, c2 := WindowExample(cfg, w1).value.counts, WindowExample(cfg, w2).value.counts;
    if w1[..|w1| - 1] == w2[..|w2| - 1] {
      assert |w1| == |w2|;
      forall i | 0 <= i < |c1| ensures c1[i] == c2[i] {
        assert w1[i] == w1[..|w1| - 1][i] == w2[i];
      }
    }
  }

  // ---------------------------------------------------------------------
  // Properties of a sequence of windows

  /** The call succeeds exactly when every window succeeds, and then yields
      one example per window, in window order. */
  lemma {:induction false} ExamplesMeaning(cfg: Config, ws: seq<Window>)
    requires cfg.Valid()
    ensures Examples(cfg, ws).Success? <==> forall k :: 0 <= k < |ws| ==> WindowExample(cfg, ws[k]).Success?
    ensures Examples(cfg, ws).Success? ==>
              |Examples(cfg, ws).value| == |ws|
              && forall k :: 0 <= k < |ws| ==> WindowExample(cfg, ws[k]) == Success(Examples(cfg, ws).value[k])
  {
    if |ws| > 0 {
      ExamplesMeaning(cfg, ws[1..]);
      assert forall k :: 1 <= k < |ws| ==> ws[k] == ws[1..][k - 1];
    }
  }

  /** Windows are processed in order: when window i is the first one that
      fails, its error is the error of the whole call and no example is
      returned. */
  lemma {:induction false} FirstFailingWindowDecides(cfg: Config, ws: seq<Window>, i: nat)
    requires cfg.Valid() && i < |ws|
    requires forall k :: 0 <= k < i ==> WindowExample(cfg, ws[k]).Success?
    requires WindowExample(cfg, ws[i]).Failure?
    ensures Examples(cfg, ws) == Failure(WindowExample(cfg, ws[i]).error)
  {
    if i > 0 {
      assert forall k :: 0 <= k < i - 1 ==> ws[1..][k] == ws[k + 1];
      FirstFailingWindowDecides(cfg, ws[1..], i - 1);
    }
  }

  /** No windowed data (None), or an empty sequence of windows, gives an
      empty list of examples and no error. */
  lemma NothingToParse(cfg: Config)
    requires cfg.Valid()
    ensures ParsedLogData(cfg, None) == Success([])
    ensures ParsedLogData(cfg, Some([])) == Success([])
  {
  }

  /** A window with fewer than two sub-windows, reached after windows that
      all succeeded, aborts the whole call with the sub-window-count error,
      whatever comes after it. */
  lemma TooFewSubWindowsAborts(cfg: Config, ws: seq<Window>, i: nat)
    requires cfg.Valid() && i < |ws| && |ws[i]| <= 1
    requires forall k :: 0 <= k < i ==> WindowExample(cfg, ws[k]).Success?
    ensures ParsedLogData(cfg, Some(ws)) == Failure(StrategyError(
              "Error parsing windowed log data, found window with "
              + (if |ws[i]| == 0 then "0" else "1") + " sub-windows!"))
  {
    TooFewSubWindows(cfg, ws[i]);
    FirstFailingWindowDecides(cfg, ws, i);
  }
}
