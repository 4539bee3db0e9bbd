/** What `vnode()` builds from the session state, as plain data: one
    button per suite, the open flags of the graph and log panels, one
    preformatted block per log group, and the dimmed history panel. The
    tree is handed to an external diff/patch layer that is not modelled. */
module View {

  import opened Wrappers
  import opened Text
  import opened Session
  import opened Totals

  /** The prefix of the running suite's caption: ballot box with check,
      emoji presentation selector, space. */
  const RunningMarker: string := "\U{2611}\U{FE0F} "

  const Dimmed: real := 0.25
  const Opaque: real := 1.0
  const HistoryOpacity: real := 0.5

  /** A suite button: its label, tooltip, visible caption, opacity and
      whether it is disabled. */
  datatype Button = Button(suiteLabel: string, title: string, caption: string, opacity: real, disabled: bool)

  /** `d.slice(0, -1)`: `d` without its last character; the empty string
      stays empty. */
  function DropLast(d: string): (r: string)
    ensures |d| == 0 ==> r == ""
    ensures |d| > 0 ==> d == r + [d[|d| - 1]]
  {
    if |d| == 0 then "" else d[..|d| - 1]
  }

  /** The button of suite `suiteName` while `disabled` holds the running
      label (or nothing). A name without `(` has no description, and
      `description.slice` throws: there is no button then. */
  function RenderButton(suiteName: string, disabled: Option<string>): (b: Option<Button>)
    ensures b.None? <==> '(' !in suiteName
    ensures b.Some? ==> b.value.suiteLabel == Label(suiteName) && '(' !in b.value.suiteLabel
    ensures b.Some? ==> b.value.disabled == Truthy(disabled)
    ensures b.Some? ==> (b.value.opacity == Dimmed || b.value.opacity == Opaque)
    ensures b.Some? ==> (b.value.opacity == Dimmed <==> Truthy(disabled) && disabled != Some(b.value.suiteLabel))
    ensures b.Some? && disabled == Some(b.value.suiteLabel) ==> b.value.caption == RunningMarker + b.value.suiteLabel
    ensures b.Some? && disabled != Some(b.value.suiteLabel) ==> b.value.caption == b.value.suiteLabel
    ensures b.Some? <==> Description(suiteName).Some?
    ensures b.Some? ==>
      var d := Description(suiteName).value;
      && (|d| == 0 ==> b.value.title == "")
      && (|d| > 0 ==> d == b.value.title + [d[|d| - 1]])
  {
    LabelAndDescription(suiteName);
    match Description(suiteName)
    case None => None
    case Some(description) =>
      var name := Label(suiteName);
      var running := disabled == Some(name);
      Some(Button(
        name,
        DropLast(description),
        (if running then RunningMarker else "") + name,
        if Truthy(disabled) && !running then Dimmed else Opaque,
        Truthy(disabled)))
  }

  /** The buttons of all suites, in registry order; none at all if any
      suite name lacks a description, since building the tree throws. */
  function RenderButtons(suiteNames: seq<string>, disabled: Option<string>): (bs: Option<seq<Button>>)
    ensures bs.Some? <==> forall i :: 0 <= i < |suiteNames| ==> '(' in suiteNames[i]
    ensures bs.Some? ==> |bs.value| == |suiteNames|
    ensures bs.Some? ==> forall i :: 0 <= i < |suiteNames| ==>
      RenderButton(suiteNames[i], disabled) == Some(bs.value[i])
  {
    if |suiteNames| == 0 then Some([])
    else
      match (RenderButton(suiteNames[0], disabled), RenderButtons(suiteNames[1..], disabled))
      case (Some(b), Some(rest)) =>
        assert forall i :: 1 <= i < |suiteNames| ==> suiteNames[i] == suiteNames[1..][i - 1];
        Some([b] + rest)
      case _ =>
        assert forall i :: 1 <= i < |suiteNames| ==> suiteNames[i] == suiteNames[1..][i - 1];
        None
  }

  /** While suite `j` runs under a non-empty label that no other suite
      shares, every button is disabled, only button `j` keeps full opacity,
      and only button `j` carries the running marker. */
  lemma OneRunningButton(suiteNames: seq<string>, j: nat)
    requires j < |suiteNames|
    requires Label(suiteNames[j]) != ""
    requires forall i :: 0 <= i < |suiteNames| && i != j ==> Label(suiteNames[i]) != Label(suiteNames[j])
    requires RenderButtons(suiteNames, Some(Label(suiteNames[j]))).Some?
    ensures var bs := RenderButtons(suiteNames, Some(Label(suiteNames[j]))).value;
      forall i :: 0 <= i < |bs| ==>
        && bs[i].disabled
        && (bs[i].opacity == Opaque <==> i == j)
        && (bs[i].caption == RunningMarker + bs[i].suiteLabel <==> i == j)
  {
  }

  /** One child of a log panel: `logGroup.length && <pre>…</pre>` gives
      the number 0 for an empty group and a preformatted block of the
      lines joined by newlines otherwise. */
  datatype Block = Skipped | Pre(text: string)

  /** The children of a log panel, one per group, in order. */
  function Blocks(groups: seq<Group>): (bs: seq<Block>)
    ensures |bs| == |groups|
    ensures forall i :: 0 <= i < |groups| ==> (bs[i].Skipped? <==> |groups[i]| == 0)
    ensures forall i :: 0 <= i < |groups| && |groups[i]| > 0 ==> bs[i] == Pre(Join(groups[i], "\n"))
  {
    seq(|groups|, i requires 0 <= i < |groups| =>
      if |groups[i]| == 0 then Skipped else Pre(Join(groups[i], "\n")))
  }

  /** A block shows its group faithfully: when no logged line contains a
      newline, splitting the block's text at newlines gives the group
      back. */
  lemma BlocksShowGroups(groups: seq<Group>, i: nat)
    requires i < |groups| && |groups[i]| > 0
    requires forall j :: 0 <= j < |groups[i]| ==> '\n' !in groups[i][j]
    ensures Blocks(groups)[i].Pre?
    ensures Split(Blocks(groups)[i].text, '\n') == groups[i]
  {
    SplitJoin(groups[i], '\n');
  }

  /** The history panel: always dimmed to half opacity, never open. */
  datatype HistoryPanel = HistoryPanel(opacity: real, blocks: seq<Block>)

  /** The whole page: buttons, the open flags of the graph and log
      panels, the log blocks, and the history panel if there is one. */
  datatype Page = Page(
    buttons: seq<Button>,
    graphOpen: bool,
    logsOpen: bool,
    logBlocks: seq<Block>,
    history: Option<HistoryPanel>)

  /** `vnode()` for the given suites and session state. */
  function Render(suiteNames: seq<string>, s: State): (p: Option<Page>)
    ensures p.Some? <==> forall i :: 0 <= i < |suiteNames| ==> '(' in suiteNames[i]
    ensures p.Some? ==> p.value.buttons == RenderButtons(suiteNames, s.disabled).value
    ensures p.Some? ==> p.value.graphOpen == p.value.logsOpen == (|s.logs| > 0)
    ensures p.Some? ==> p.value.logBlocks == Blocks(s.logs)
    ensures p.Some? ==> (p.value.history.Some? <==> |s.history| > 0)
    ensures p.Some? && p.value.history.Some? ==>
      p.value.history.value == HistoryPanel(HistoryOpacity, Blocks(s.history))
  {
    match RenderButtons(suiteNames, s.disabled)
    case None => None
    case Some(buttons) =>
      var open := |s.logs| > 0;
      var history := if |s.history| > 0 then Some(HistoryPanel(HistoryOpacity, Blocks(s.history))) else None;
      Some(Page(buttons, open, open, Blocks(s.logs), history))
  }

  /** In a valid session every log group has lines, so the log panel
      shows one preformatted block per group, newest run first. */
  lemma ValidLogsAllShown(suiteNames: seq<string>, s: State)
    requires Valid(s)
    requires Render(suiteNames, s).Some?
    ensures forall i :: 0 <= i < |s.logs| ==>
      Render(suiteNames, s).value.logBlocks[i] == Pre(Join(s.logs[i], "\n"))
  {
  }

  /** The chart data `log` hands to the bar chart after each line: every
      implementation once, by descending total, with its own total and
      colour. */
  function ChartOf(s: State): (c: Chart)
    requires WellKeyed(s.cumulative)
    ensures Shows(s.cumulative, Implementations, c)
  {
    WellKeyedCovers(s.cumulative);
    Snapshot(s.cumulative, Implementations)
  }
}
