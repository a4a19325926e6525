# Event-level sliding-window feature extraction

This project models the event-level sliding-window strategy of a failure
predictor for HPC system logs: `EventLevelSlidingWindow` in
`src/strategy/EventLevelSlidingWindow.py`. The strategy takes log data that is
already divided into windows. Each window is a sequence of sub-windows. Each
sub-window is a sequence of events, and each event maps field names to values.
From every window it builds one training example:

- one count tuple per sub-window except the last, with four entries: the number
  of events of each of the first four configured severities (by default INFO,
  WARN, ERROR, FATAL), in that order;
- a label: whether the held-out last sub-window contains an event of the fourth
  severity.

The files:

- `wrappers.dfy` (module `Wrappers`): `Option` stands for Python's `None`;
  `Result` stands for a call that either returns or raises.
- `features.dfy` (module `Features`): the extraction as pure functions
  (`CountSeverity`, `Tally`, `SubWindowError`, `LabelScan`, `HasFatal`,
  `WindowExample`, `Examples`, `ParsedLogData`) and the lemmas that say what
  they mean.
- `strategy.dfy` (module `Strategy`): the class `EventLevelSlidingWindow`. Its
  fields `severities` and `severityKey` are set by the constructor. Its methods
  run the source's loops: a dictionary of counts updated in place per
  sub-window, a scan of the held-out sub-window that stops at the first fatal
  event, and lists built by appending. Each method is proved to return exactly
  the specification function of the same step. The source runs the three loop
  levels inline in one method; here each level is a method of the class
  (`CountSubWindow`, `ScanForFatal`, `ParseWindow`, called by
  `ParseWindowedLogData`), so that each proof stays small.

Errors are a `ParseError`:

- `StrategyError(message)` is the strategy's own exception. It is raised for a
  window with fewer than two sub-windows. It is also raised for an event of a
  counted sub-window that has no severity field. The messages are the source's
  messages, with the number of sub-windows written in decimal and the
  configured field name inserted.
- `KeyError(key)` is the dictionary lookup failure that escapes from the source
  in two places. The first is a counted event whose severity is not one of the
  four tracked ones; the key is that value. The second is an event of the
  held-out sub-window without the severity field; the key is the field name.
  The held-out scan stops at the first fatal event, so a field-less event after
  it raises nothing.

The code and the system's design description disagree in places; the model
follows the code:

- The design says every event lacking the severity field raises a
  StrategyError. In the code, only events of the counted sub-windows do. In the
  held-out sub-window, such an event raises a KeyError, and only when it comes
  before every fatal event.
- The design describes an extraction that also takes interval-level windows.
  The method in this file takes the windowed data only.

## Model

| member | source | states |
|---|---|---|
| `Strategy.EventLevelSlidingWindow.constructor` | src/strategy/EventLevelSlidingWindow.py:19-23 | an absent or empty severity list becomes INFO, WARN, ERROR, FATAL; an absent or empty field name becomes SEVERITY; otherwise the given values are kept |
| `Strategy.EventLevelSlidingWindow.ParseWindowedLogData` | src/strategy/EventLevelSlidingWindow.py:26-91 | the nested loops return exactly `ParsedLogData` of the object's configuration: no examples for None or no windows, otherwise one example per window or the first window's error |
| `Strategy.EventLevelSlidingWindow.ParseWindow` | src/strategy/EventLevelSlidingWindow.py:47-89 | one window's processing returns exactly `WindowExample`: the size check, then the tallies, then the label |
| `Strategy.EventLevelSlidingWindow.CountSubWindow` | src/strategy/EventLevelSlidingWindow.py:54-79 | the dictionary tally of a counted sub-window returns the four counts `Tally` in configured order when every event is countable, and otherwise the error of the first event that is not |
| `Strategy.EventLevelSlidingWindow.ScanForFatal` | src/strategy/EventLevelSlidingWindow.py:81-86 | the scan of the held-out sub-window, with its early break, returns exactly `LabelScan` |
| `Features.NothingToParse` | src/strategy/EventLevelSlidingWindow.py:37-40 | None and an empty sequence of windows both give an empty list of examples, not an error |
| `Features.ExamplesMeaning` | src/strategy/EventLevelSlidingWindow.py:44-91 | the call succeeds exactly when every window succeeds, and then gives one example per window, the k-th being window k's example |
| `Features.FirstFailingWindowDecides` | src/strategy/EventLevelSlidingWindow.py:47-89 | windows are handled in order: the first window that fails decides the error of the whole call, and no partial list is returned |
| `Features.TooFewSubWindows` | src/strategy/EventLevelSlidingWindow.py:49-51 | a window with 0 or 1 sub-windows fails with StrategyError "Error parsing windowed log data, found window with N sub-windows!", N being its length |
| `Features.TooFewSubWindowsAborts` | src/strategy/EventLevelSlidingWindow.py:47-51 | such a window, reached after windows that all succeeded, aborts the whole call with that message whatever follows it |
| `Features.NatToStringRoundTrip` | src/strategy/EventLevelSlidingWindow.py:51 | the decimal rendering used for `%d` in the message reads back as the same number |
| `Features.BadCountedEventAborts` | src/strategy/EventLevelSlidingWindow.py:66-74 | the first event of the counted sub-windows, in scan order, that cannot be tallied aborts the window: StrategyError "Error parsing windowed log data, could not find K field!" naming the configured key K when the field is missing, KeyError of the value when the value is not a tracked severity |
| `Features.SubWindowErrorNone` | src/strategy/EventLevelSlidingWindow.py:66-74 | a sub-window tallies without error if and only if every event has the severity field with one of the four tracked values |
| `Features.SubWindowErrorAt` | src/strategy/EventLevelSlidingWindow.py:66-74 | when event j is the first that cannot be tallied, the sub-window's error is that event's error |
| `Features.CountedSubWindowsErrorNone` | src/strategy/EventLevelSlidingWindow.py:55-74 | the counted sub-windows tally without error if and only if all their events can be tallied |
| `Features.CountedSubWindowsErrorAt` | src/strategy/EventLevelSlidingWindow.py:55-74 | across the counted sub-windows, sub-window by sub-window and event by event, the first event that cannot be tallied decides the error |
| `Features.CountSeverityIsCardinality` | src/strategy/EventLevelSlidingWindow.py:59-74 | the count for severity v equals the number of positions holding an event whose severity field is v |
| `Features.TallySumsToLength` | src/strategy/EventLevelSlidingWindow.py:59-79 | with four distinct severities and every event carrying one of them, the four counts of a sub-window add up to its number of events |
| `Features.CountTuplesSumToLengths` | src/strategy/EventLevelSlidingWindow.py:55-79 | with four distinct severities, every count tuple of a produced example adds up to the length of its sub-window |
| `Features.LabelScanMeaning` | src/strategy/EventLevelSlidingWindow.py:81-86 | when the held-out scan succeeds its answer is true if and only if the held-out sub-window has an event of the fourth severity; it fails, always with KeyError of the field name, if and only if an event without the field comes before every such event |
| `Features.WindowExampleMeaning` | src/strategy/EventLevelSlidingWindow.py:47-89 | a window gives an example if and only if it has at least two sub-windows, all counted events can be tallied and the held-out scan succeeds; the example then has exactly len(window) - 1 tuples of four non-negative counts, entry k of tuple i counting the events of sub-window i with severity k, and its label is whether the held-out sub-window holds an event of the fourth severity |
| `Features.HeldOutSubWindowOnlyLabels` | src/strategy/EventLevelSlidingWindow.py:53-86 | the held-out sub-window never affects a count and the counted sub-windows never affect the label: successful windows that agree on the counted part have equal counts, and ones that agree on the held-out part have equal labels |

## Left out

- The window length and the number of sub-windows that the constructor passes
  on to its base class `SlidingWindow` are not modelled. That class and its
  segmentation of a log into windows (`parseLogWindows`) are not part of this
  model; the extraction starts from data already divided into windows.
- `Strategy.EventLevelSlidingWindow.constructor` requires a non-empty severity
  list to have at least four entries. With one to three entries the source
  fails later with an IndexError, which is not modelled. Entries after the
  fourth are ignored, as in the source.
- Events are modelled as maps from strings to strings. The source accepts any
  Python values; only equality of the severity value matters to it.
- `train` and `predict` of the class, the abstract `LearningStrategy` and the
  `ComponentStrategy` class are not modelled. They only delegate to base
  classes that are not part of this model or raise `NotImplementedError`.
- The richer feature set of the IBM-paper strategy is not modelled: interval
  series, means, standard deviations, time since the last fatal event, and the
  text format of the training file. Its implementation is not part of this
  model.
- The experiment runner (file I/O, model paths, reading prediction scores,
  printing) and the RAS log parser are not modelled. They are I/O and raw text
  parsing.
