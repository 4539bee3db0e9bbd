/** The cumulative throughput table of the benchmark page and the bar-chart
    snapshot drawn from it after every log line: the implementation names
    ordered by descending total, with their totals and bar colours. */
module Totals {

  /** The compared implementations, in the insertion order of the
      `cumulative` object; `Object.keys(cumulative)` yields them in this
      order. */
  const Implementations: seq<string> :=
    ["million", "tiny-vdom", "simple-virtual-dom", "virtual-dom", "snabbdom", "DOM", "innerHTML"]

  /** The implementation drawn in the distinguished colour. */
  const Reference: string := "million"

  const ReferenceBackground: string := "rgba(255, 82, 76, 0.5)"
  const ReferenceBorder: string := "rgba(255, 82, 76, 1)"
  const OtherBackground: string := "rgba(78, 35, 114, 0.5)"
  const OtherBorder: string := "rgba(78, 35, 114, 1)"

  /** Running total of rounded operations per second, per implementation. */
  type Table = map<string, nat>

  /** The table has exactly the seven implementation keys. */
  predicate WellKeyed(t: Table)
  {
    t.Keys == set k | k in Implementations
  }

  /** A well-keyed table has a total for every implementation. */
  lemma WellKeyedCovers(t: Table)
    requires WellKeyed(t)
    ensures Covers(t, Implementations)
  {
  }

  /** Every key of `s` has a total in `t`. */
  predicate Covers(t: Table, s: seq<string>)
  {
    forall i :: 0 <= i < |s| ==> s[i] in t
  }

  /** The table the page starts with: every implementation at zero. */
  function Initial(): (t: Table)
    ensures WellKeyed(t)
    ensures forall k :: k in t ==> t[k] == 0
  {
    map k | k in Implementations :: 0
  }

  /** `cumulative[name] += hz`: the named total grows by `hz`, every other
      total and the key set stay as they were. */
  function Add(t: Table, name: string, hz: nat): (t': Table)
    requires name in t
    ensures t'.Keys == t.Keys
    ensures t'[name] == t[name] + hz
    ensures forall k :: k in t && k != name ==> t'[k] == t[k]
  {
    t[name := t[name] + hz]
  }

  /** `s` lists keys in non-increasing order of total. */
  predicate Descending(t: Table, s: seq<string>)
    requires Covers(t, s)
  {
    forall i, j :: 0 <= i < j < |s| ==> t[s[i]] >= t[s[j]]
  }

  /** The keys of `s` whose total is `v`, in their order in `s`. */
  function WithTotal(t: Table, s: seq<string>, v: nat): seq<string>
  {
    if |s| == 0 then []
    else if s[0] in t && t[s[0]] == v then [s[0]] + WithTotal(t, s[1..], v)
    else WithTotal(t, s[1..], v)
  }

  /** One step of the stable sort: `x` goes in front of the first key of
      `s` whose total does not exceed its own. */
  function Insert(t: Table, x: string, s: seq<string>): (r: seq<string>)
    requires x in t && Covers(t, s)
    ensures multiset(r) == multiset(s) + multiset{x}
    ensures |r| == |s| + 1
    ensures r[0] == x || (|s| > 0 && r[0] == s[0])
  {
    if |s| == 0 || t[s[0]] <= t[x] then [x] + s
    else
      assert s == [s[0]] + s[1..];
      [s[0]] + Insert(t, x, s[1..])
  }

  /** Inserting a key with a total keeps every key covered. */
  lemma InsertCovers(t: Table, x: string, s: seq<string>)
    requires x in t && Covers(t, s)
    ensures Covers(t, Insert(t, x, s))
  {
  }

  /** Inserting into a descending sequence keeps it descending. */
  lemma {:induction false} InsertDescending(t: Table, x: string, s: seq<string>)
    requires x in t && Covers(t, s)
    requires Descending(t, s)
    ensures Covers(t, Insert(t, x, s))
    ensures Descending(t, Insert(t, x, s))
  {
    InsertCovers(t, x, s);
    if |s| == 0 || t[s[0]] <= t[x] {
    } else {
      var rest := Insert(t, x, s[1..]);
      InsertDescending(t, x, s[1..]);
      var r := [s[0]] + rest;
      forall i, j | 0 <= i < j < |r|
        ensures t[r[i]] >= t[r[j]]
      {
        if i == 0 {
          assert r[j] == rest[j - 1];
          if j > 1 {
            assert t[rest[0]] >= t[rest[j - 1]];
          }
        } else {
          assert r[i] == rest[i - 1] && r[j] == rest[j - 1];
        }
      }
    }
  }

  /** `keys.sort((a, b) => t[b] - t[a])`: the comparator is a difference
      of totals, so the order is by descending total, and the sort of
      ECMAScript 2019 is stable, so equal totals keep their input order. */
  function SortByTotal(t: Table, keys: seq<string>): (r: seq<string>)
    requires Covers(t, keys)
    ensures Covers(t, r)
    ensures multiset(r) == multiset(keys)
    ensures Descending(t, r)
  {
    if |keys| == 0 then []
    else
      var rest := SortByTotal(t, keys[1..]);
      InsertDescending(t, keys[0], rest);
      assert keys == [keys[0]] + keys[1..];
      Insert(t, keys[0], rest)
  }

  /** Inserting keeps, among keys of any one total, the order "`x` first,
      then the keys of `s`". */
  lemma {:induction false} InsertStable(t: Table, x: string, s: seq<string>, v: nat)
    requires x in t && Covers(t, s)
    requires Descending(t, s)
    ensures WithTotal(t, Insert(t, x, s), v) == WithTotal(t, [x] + s, v)
  {
    if |s| == 0 || t[s[0]] <= t[x] {
    } else {
      var rest := Insert(t, x, s[1..]);
      InsertStable(t, x, s[1..], v);
      assert Insert(t, x, s) == [s[0]] + rest;
      assert ([s[0]] + rest)[1..] == rest;
      assert ([x] + s)[1..] == s;
      assert ([x] + s[1..])[1..] == s[1..];
    }
  }

  /** The sort is stable: among keys with the same total, the output
      keeps the input order. */
  lemma {:induction false} SortStable(t: Table, keys: seq<string>, v: nat)
    requires Covers(t, keys)
    ensures WithTotal(t, SortByTotal(t, keys), v) == WithTotal(t, keys, v)
  {
    if |keys| > 0 {
      var rest := SortByTotal(t, keys[1..]);
      SortStable(t, keys[1..], v);
      InsertStable(t, keys[0], rest, v);
      assert ([keys[0]] + rest)[1..] == rest;
    }
  }

  /** The data handed to the bar chart: labels, values and the two colour
      series, all parallel. */
  datatype Chart = Chart(labels: seq<string>, values: seq<nat>, background: seq<string>, border: seq<string>)

  function BackgroundOf(key: string): string
  {
    if key == Reference then ReferenceBackground else OtherBackground
  }

  function BorderOf(key: string): string
  {
    if key == Reference then ReferenceBorder else OtherBorder
  }

  /** The chart data for keys `s` in the given order. */
  function ChartFor(t: Table, s: seq<string>): (c: Chart)
    requires Covers(t, s)
    ensures |c.labels| == |c.values| == |c.background| == |c.border| == |s|
    ensures c.labels == s
    ensures forall i :: 0 <= i < |s| ==> c.values[i] == t[s[i]]
    ensures forall i :: 0 <= i < |s| ==>
      (c.background[i] == ReferenceBackground <==> s[i] == Reference) &&
      (c.border[i] == ReferenceBorder <==> s[i] == Reference) &&
      (s[i] != Reference ==> c.background[i] == OtherBackground && c.border[i] == OtherBorder)
  {
    Chart(s,
          seq(|s|, i requires 0 <= i < |s| => t[s[i]]),
          seq(|s|, i requires 0 <= i < |s| => BackgroundOf(s[i])),
          seq(|s|, i requires 0 <= i < |s| => BorderOf(s[i])))
  }

  /** The chart as first constructed: keys in insertion order. */
  function InitialChart(t: Table): Chart
    requires WellKeyed(t)
  {
    WellKeyedCovers(t);
    ChartFor(t, Implementations)
  }

  /** Chart `c` shows the totals of `t` for `keys`: each key once, by
      descending total, each bar with its own key's total, and the
      reference colours on the reference implementation alone, with one
      shared pair of colours on every other bar. */
  predicate Shows(t: Table, keys: seq<string>, c: Chart)
  {
    && multiset(c.labels) == multiset(keys)
    && |c.labels| == |c.values| == |c.background| == |c.border| == |keys|
    && (forall i, j :: 0 <= i < j < |c.values| ==> c.values[i] >= c.values[j])
    && (forall i :: 0 <= i < |c.labels| ==> c.labels[i] in t && c.values[i] == t[c.labels[i]])
    && (forall i :: 0 <= i < |c.labels| ==>
         (c.background[i] == ReferenceBackground <==> c.labels[i] == Reference) &&
         (c.border[i] == ReferenceBorder <==> c.labels[i] == Reference) &&
         (c.labels[i] != Reference ==> c.background[i] == OtherBackground && c.border[i] == OtherBorder))
  }

  /** The chart after a log line: `keys` (the table's keys in insertion
      order) sorted by descending total, with values and colours. */
  function Snapshot(t: Table, keys: seq<string>): (c: Chart)
    requires Covers(t, keys)
    ensures Shows(t, keys, c)
  {
    var sorted := SortByTotal(t, keys);
    assert |sorted| == |multiset(sorted)| == |multiset(keys)| == |keys|;
    ChartFor(t, sorted)
  }

  /** Ties keep the insertion order of the keys. */
  lemma SnapshotStable(t: Table, keys: seq<string>, v: nat)
    requires Covers(t, keys)
    ensures WithTotal(t, Snapshot(t, keys).labels, v) == WithTotal(t, keys, v)
  {
    SortStable(t, keys, v);
  }

  /** When every key of `s` has total `v`, filtering by `v` keeps all. */
  lemma {:induction false} WithTotalAll(t: Table, s: seq<string>, v: nat)
    requires Covers(t, s)
    requires forall i :: 0 <= i < |s| ==> t[s[i]] == v
    ensures WithTotal(t, s, v) == s
  {
    if |s| > 0 {
      WithTotalAll(t, s[1..], v);
      assert s == [s[0]] + s[1..];
    }
  }

  /** While every total is still equal the sorted snapshot is the chart
      the page was constructed with, because the sort keeps ties in
      insertion order. */
  lemma {:induction false} EqualTotalsSnapshot(t: Table, keys: seq<string>, v: nat)
    requires Covers(t, keys)
    requires forall k :: k in t ==> t[k] == v
    ensures Snapshot(t, keys) == ChartFor(t, keys)
  {
    var sorted := SortByTotal(t, keys);
    SortStable(t, keys, v);
    WithTotalAll(t, sorted, v);
    WithTotalAll(t, keys, v);
  }

  /** Before any result arrives the snapshot equals the initial chart. */
  lemma InitialSnapshot()
    ensures Covers(Initial(), Implementations)
    ensures Snapshot(Initial(), Implementations) == InitialChart(Initial())
  {
    WellKeyedCovers(Initial());
    EqualTotalsSnapshot(Initial(), Implementations, 0);
  }
}
