/** The page's session state and the three handlers that change it: a
    suite button's click (start a run), `log` (one line, and for a
    benchmark result one more addition to the cumulative totals) and a
    suite's `'complete'` handler (summary line, re-enable, persist). Every
    handler is a pure function from the old state to the new one. */
module Session {

  import opened Wrappers
  import opened Text
  import opened Totals

  /** The lines logged during one run, oldest first. */
  type Group = seq<string>

  /** What `log` is given: a plain string, or a benchmark result whose
      `name` and rounded `hz` feed the totals and whose `toString()` text
      is `text`. */
  datatype Message =
    | Line(line: string)
    | Result(name: string, hz: nat, text: string)

  /** The module-level variables of the page: `cumulative`, `logs` (newest
      group first), `history` (read from storage at load), `disabled`
      (`false`, or the label of the running suite) and the storage slot
      `localStorage.logs`. */
  datatype State = State(
    cumulative: Table,
    logs: seq<Group>,
    history: seq<Group>,
    disabled: Option<string>,
    stored: Option<seq<Group>>)

  /** The events the page reacts to: a click on a suite's button, a
      suite's `'cycle'` event with its result, and its `'complete'`
      event, with the names the suite judged fastest. */
  datatype Event =
    | Press(suiteName: string, stamp: string)
    | Cycle(name: string, hz: nat, text: string)
    | Finish(fastest: seq<string>)

  /** `String(message)`. */
  function Rendered(m: Message): (s: string)
    ensures m.Line? ==> s == m.line
    ensures m.Result? ==> s == m.text
  {
    match m
    case Line(line) => line
    case Result(_, _, text) => text
  }

  /** `if (message.name)`: only a result with a non-empty name counts. */
  predicate Named(m: Message)
  {
    m.Result? && m.name != ""
  }

  /** What a message adds to the total of implementation `k`. */
  function Gain(m: Message, k: string): nat
  {
    if Named(m) && m.name == k then m.hz else 0
  }

  /** The name of a result is one of the table's keys. An unknown name
      would make the source add `NaN` under a fresh key. */
  predicate Recognised(keys: set<string>, m: Message)
  {
    Named(m) ==> m.name in keys
  }

  /** `disabled` read as a JavaScript condition: `false` and the empty
      label are both falsy. */
  function Truthy(d: Option<string>): (b: bool)
    ensures d.None? ==> !b
    ensures d == Some("") ==> !b
    ensures d.Some? && |d.value| > 0 ==> b
  {
    d.Some? && d.value != ""
  }

  /** The line logged when a run starts; `stamp` is the locale date text. */
  function RunningLine(suiteName: string, stamp: string): (line: string)
    ensures |line| == 12 + |suiteName| + |stamp|
    ensures line[..9] == "Running: "
    ensures line[9..9 + |suiteName|] == suiteName
    ensures line[9 + |suiteName|..12 + |suiteName|] == " - "
    ensures line[12 + |suiteName|..] == stamp
  {
    "Running: " + suiteName + " - " + stamp
  }

  /** The line logged when a run completes: the fastest names as an
      array interpolated into a template, which joins them with commas. */
  function FastestLine(fastest: seq<string>): (line: string)
    ensures |line| >= 11 && line[..11] == "Fastest is "
    ensures fastest == [] ==> line == "Fastest is "
    ensures |fastest| == 1 ==> line == "Fastest is " + fastest[0]
  {
    "Fastest is " + Join(fastest, ",")
  }

  /** The state at page load. An absent or empty storage slot gives an
      empty history; otherwise the stored groups are the history. */
  function Init(stored: Option<seq<Group>>): (s: State)
    ensures WellKeyed(s.cumulative) && forall k :: k in s.cumulative ==> s.cumulative[k] == 0
    ensures s.logs == [] && s.disabled == None && s.stored == stored
    ensures stored.None? ==> s.history == []
    ensures stored.Some? ==> s.history == stored.value
  {
    State(Initial(), [], stored.GetOr([]), None, stored)
  }

  /** `log(message)`: a named result adds its throughput to its own total,
      then the message text is appended to the newest group. The source
      reads `logs[0]`, so some group must exist. */
  function Log(s: State, m: Message): (r: State)
    requires |s.logs| > 0
    requires Recognised(s.cumulative.Keys, m)
    ensures r.cumulative.Keys == s.cumulative.Keys
    ensures forall k :: k in s.cumulative ==> r.cumulative[k] == s.cumulative[k] + Gain(m, k)
    ensures |r.logs| == |s.logs|
    ensures r.logs[0] == s.logs[0] + [Rendered(m)]
    ensures r.logs[1..] == s.logs[1..]
    ensures r.history == s.history && r.disabled == s.disabled && r.stored == s.stored
  {
    var totals := if Named(m) then Add(s.cumulative, m.name, m.hz) else s.cumulative;
    s.(cumulative := totals, logs := [s.logs[0] + [Rendered(m)]] + s.logs[1..])
  }

  /** The click handler of a suite's button: mark the suite's label as
      running, open a new empty group in front and log the start line. */
  function StartRun(s: State, suiteName: string, stamp: string): (r: State)
    ensures r.disabled == Some(Label(suiteName))
    ensures |r.logs| == |s.logs| + 1
    ensures r.logs[0] == [RunningLine(suiteName, stamp)]
    ensures r.logs[1..] == s.logs
    ensures r.cumulative == s.cumulative
    ensures r.history == s.history && r.stored == s.stored
  {
    var begun := s.(disabled := Some(Label(suiteName)), logs := [[]] + s.logs);
    Log(begun, Line(RunningLine(suiteName, stamp)))
  }

  /** The `'complete'` handler: log the fastest line, clear `disabled`,
      and store the current groups followed by the history. */
  function Complete(s: State, fastest: seq<string>): (r: State)
    requires |s.logs| > 0
    ensures |r.logs| == |s.logs|
    ensures r.logs[0] == s.logs[0] + [FastestLine(fastest)]
    ensures r.logs[1..] == s.logs[1..]
    ensures r.disabled == None
    ensures r.stored == Some(r.logs + s.history)
    ensures r.cumulative == s.cumulative && r.history == s.history
  {
    var logged := Log(s, Line(FastestLine(fastest)));
    logged.(disabled := None, stored := Some(logged.logs + logged.history))
  }

  /** The source can handle the event without throwing: a click always,
      a cycle or completion only once a group exists, and a cycle only
      for a known implementation. */
  predicate Accepts(s: State, e: Event)
  {
    match e
    case Press(_, _) => true
    case Cycle(name, hz, text) => |s.logs| > 0 && Recognised(s.cumulative.Keys, Result(name, hz, text))
    case Finish(_) => |s.logs| > 0
  }

  /** One event. A click on a button is only delivered while `disabled` is
      falsy, since the button carries `disabled={disabled}`. */
  function Step(s: State, e: Event): (r: State)
    requires Accepts(s, e)
    ensures e.Press? && Truthy(s.disabled) ==> r == s
    ensures e.Press? && !Truthy(s.disabled) ==> r.disabled == Some(Label(e.suiteName)) && |r.logs| == |s.logs| + 1
    ensures r.cumulative.Keys == s.cumulative.Keys
    ensures forall k :: k in s.cumulative ==> r.cumulative[k] >= s.cumulative[k]
    ensures r.history == s.history
  {
    match e
    case Press(suiteName, stamp) =>
      if Truthy(s.disabled) then s else StartRun(s, suiteName, stamp)
    case Cycle(name, hz, text) => Log(s, Result(name, hz, text))
    case Finish(fastest) => Complete(s, fastest)
  }

  /** The invariant of a session: the seven keys, no empty group, and a
      group to log into whenever a run is marked. */
  predicate Valid(s: State)
  {
    && WellKeyed(s.cumulative)
    && (forall i :: 0 <= i < |s.logs| ==> |s.logs[i]| > 0)
    && (s.disabled.Some? ==> |s.logs| > 0)
  }

  /** The page starts in a valid state. */
  lemma InitValid(stored: Option<seq<Group>>)
    ensures Valid(Init(stored))
  {
  }

  /** Every event the source accepts keeps the session valid. */
  lemma StepValid(s: State, e: Event)
    requires Valid(s) && Accepts(s, e)
    ensures Valid(Step(s, e))
  {
  }

  /** While a run is marked, the events of the running suite are all
      accepted: the source never reads `logs[0]` before a group exists. */
  lemma RunningAccepts(s: State, e: Event)
    requires Valid(s) && s.disabled.Some?
    requires e.Cycle? ==> e.name in Implementations
    ensures Accepts(s, e)
  {
  }

  /** Total gain of a sequence of messages for implementation `k`. */
  function Gained(ms: seq<Message>, k: string): nat
  {
    if |ms| == 0 then 0 else Gain(ms[0], k) + Gained(ms[1..], k)
  }

  /** The texts of a sequence of messages. */
  function RenderedAll(ms: seq<Message>): (lines: seq<string>)
    ensures |lines| == |ms|
    ensures forall i :: 0 <= i < |ms| ==> lines[i] == Rendered(ms[i])
  {
    if |ms| == 0 then [] else [Rendered(ms[0])] + RenderedAll(ms[1..])
  }

  /** `log` applied to each message in turn. */
  function LogAll(s: State, ms: seq<Message>): (r: State)
    requires |s.logs| > 0
    requires forall i :: 0 <= i < |ms| ==> Recognised(s.cumulative.Keys, ms[i])
    ensures r.cumulative.Keys == s.cumulative.Keys
    ensures |r.logs| == |s.logs|
    ensures r.logs[1..] == s.logs[1..]
    ensures r.history == s.history && r.disabled == s.disabled && r.stored == s.stored
    decreases |ms|
  {
    if |ms| == 0 then s
    else LogAll(Log(s, ms[0]), ms[1..])
  }

  /** Logging a sequence of messages leaves every total equal to its old
      value plus the throughput of the results named after it, and
      appends the texts, in order, to the newest group. */
  lemma {:induction false} LogAllEffect(s: State, ms: seq<Message>)
    requires |s.logs| > 0
    requires forall i :: 0 <= i < |ms| ==> Recognised(s.cumulative.Keys, ms[i])
    ensures forall k :: k in s.cumulative ==> LogAll(s, ms).cumulative[k] == s.cumulative[k] + Gained(ms, k)
    ensures LogAll(s, ms).logs[0] == s.logs[0] + RenderedAll(ms)
    decreases |ms|
  {
    if |ms| > 0 {
      var s1 := Log(s, ms[0]);
      LogAllEffect(s1, ms[1..]);
      assert RenderedAll(ms) == [Rendered(ms[0])] + RenderedAll(ms[1..]);
    }
  }

  /** One whole run from a click: start, one log line per result, then
      completion. */
  function Run(s: State, suiteName: string, stamp: string, results: seq<Message>, fastest: seq<string>): State
    requires forall i :: 0 <= i < |results| ==> Recognised(s.cumulative.Keys, results[i])
  {
    Complete(LogAll(StartRun(s, suiteName, stamp), results), fastest)
  }

  /** A run adds one group in front holding the start line, the result
      texts and the fastest line; it adds each result to its own total,
      ends with no suite marked, and stores the session's groups followed
      by the unchanged history. */
  lemma RunEffect(s: State, suiteName: string, stamp: string, results: seq<Message>, fastest: seq<string>)
    requires forall i :: 0 <= i < |results| ==> Recognised(s.cumulative.Keys, results[i])
    ensures var r := Run(s, suiteName, stamp, results, fastest);
      && |r.logs| == |s.logs| + 1
      && r.logs[0] == [RunningLine(suiteName, stamp)] + RenderedAll(results) + [FastestLine(fastest)]
      && r.logs[1..] == s.logs
      && r.cumulative.Keys == s.cumulative.Keys
      && (forall k :: k in s.cumulative ==> r.cumulative[k] == s.cumulative[k] + Gained(results, k))
      && r.disabled == None
      && r.history == s.history
      && r.stored == Some(r.logs + s.history)
  {
    LogAllEffect(StartRun(s, suiteName, stamp), results);
  }

  /** Reloading the page after a completed run reads back exactly the
      stored groups as its history. */
  lemma ReloadAfterComplete(s: State, fastest: seq<string>)
    requires |s.logs| > 0
    ensures Init(Complete(s, fastest).stored).history == Complete(s, fastest).logs + s.history
  {
  }

  /** Two runs in one session store both groups, newest first, in front
      of the history read at load: history is never merged twice. */
  lemma TwoRuns(stored: Option<seq<Group>>, a: string, sa: string, ra: seq<Message>, fa: seq<string>,
                b: string, sb: string, rb: seq<Message>, fb: seq<string>)
    requires forall i :: 0 <= i < |ra| ==> Recognised(Initial().Keys, ra[i])
    requires forall i :: 0 <= i < |rb| ==> Recognised(Initial().Keys, rb[i])
    ensures var s1 := Run(Init(stored), a, sa, ra, fa);
      var s2 := Run(s1, b, sb, rb, fb);
      && |s2.logs| == 2
      && s2.logs[1] == s1.logs[0]
      && s2.stored == Some(s2.logs + stored.GetOr([]))
  {
    var s0 := Init(stored);
    RunEffect(s0, a, sa, ra, fa);
    var s1 := Run(s0, a, sa, ra, fa);
    RunEffect(s1, b, sb, rb, fb);
  }

  /** A run with two results for `million`, of 1000 and 1200 operations
      per second, leaves a total of 2200 and a group of four lines, and
      re-enables the buttons. */
  lemma MillionScenario(name: string, stamp: string, t1: string, t2: string, fastest: seq<string>)
    ensures var r := Run(Init(None), name, stamp, [Result("million", 1000, t1), Result("million", 1200, t2)], fastest);
      && r.cumulative["million"] == 2200
      && (forall k :: k in Implementations && k != "million" ==> r.cumulative[k] == 0)
      && |r.logs| == 1 && |r.logs[0]| == 4
      && r.disabled == None
      && r.stored == Some(r.logs)
  {
    var results := [Result("million", 1000, t1), Result("million", 1200, t2)];
    var s0 := Init(None);
    assert "million" in Implementations;
    assert results[1..][1..] == [];
    assert Gained(results[1..], "million") == 1200;
    assert Gained(results, "million") == 2200;
    RunEffect(s0, name, stamp, results, fastest);
    forall k | k in Implementations && k != "million"
      ensures Gained(results, k) == 0
    {
      assert Gained(results[1..][1..], k) == 0;
      assert Gain(results[1..][0], k) == 0;
      assert Gained(results[1..], k) == 0;
      assert Gain(results[0], k) == 0;
    }
    var r := Run(s0, name, stamp, results, fastest);
    assert r.logs + [] == r.logs;
  }
}
