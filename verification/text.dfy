/** The two string operations of JavaScript the page relies on:
    `String.prototype.split` with a one-character separator (splitting a
    suite name at `(`) and `Array.prototype.join` (a log group joined with
    newlines, the fastest names joined with commas). */
module Text {

  import opened Wrappers

  /** `s.split(sep)`: the pieces of `s` between occurrences of `sep`, in
      order. The empty string splits into one empty piece. */
  function Split(s: string, sep: char): (parts: seq<string>)
    ensures |parts| >= 1
    ensures forall i :: 0 <= i < |parts| ==> sep !in parts[i]
    ensures sep !in s ==> parts == [s]
  {
    if s == [] then [""]
    else if s[0] == sep then [""] + Split(s[1..], sep)
    else
      var rest := Split(s[1..], sep);
      assert sep !in s ==> sep !in s[1..] && s == [s[0]] + s[1..];
      [[s[0]] + rest[0]] + rest[1..]
  }

  /** `parts.join(sep)`: the pieces with `sep` between neighbours; the
      empty array joins to the empty string. */
  function Join(parts: seq<string>, sep: string): (s: string)
    ensures |parts| == 0 ==> s == ""
    ensures |parts| == 1 ==> s == parts[0]
  {
    if |parts| == 0 then ""
    else if |parts| == 1 then parts[0]
    else parts[0] + sep + Join(parts[1..], sep)
  }

  /** A join starts with its first piece and ends with its last. */
  lemma {:induction false} JoinEnds(parts: seq<string>, sep: string)
    requires |parts| > 0
    ensures var s, last := Join(parts, sep), parts[|parts| - 1];
      && |parts[0]| <= |s| && s[..|parts[0]|] == parts[0]
      && |last| <= |s| && s[|s| - |last|..] == last
  {
    if |parts| > 1 {
      JoinEnds(parts[1..], sep);
      var tail := Join(parts[1..], sep);
      assert Join(parts, sep) == parts[0] + (sep + tail);
      assert parts[1..][|parts[1..]| - 1] == parts[|parts| - 1];
    }
  }

  /** Joining the pieces of a split with the separator gives back the
      original string. */
  lemma {:induction false} JoinSplit(s: string, sep: char)
    ensures Join(Split(s, sep), [sep]) == s
  {
    if s == [] {
    } else if s[0] == sep {
      JoinSplit(s[1..], sep);
      var rest := Split(s[1..], sep);
      assert Split(s, sep) == [""] + rest;
      assert s == [s[0]] + s[1..];
    } else {
      JoinSplit(s[1..], sep);
      var rest := Split(s[1..], sep);
      var parts := Split(s, sep);
      assert parts == [[s[0]] + rest[0]] + rest[1..];
      assert parts[1..] == rest[1..];
      if |rest| == 1 {
        assert Join(rest, [sep]) == rest[0];
      } else {
        assert Join(rest, [sep]) == rest[0] + [sep] + Join(rest[1..], [sep]);
      }
      assert s == [s[0]] + s[1..];
    }
  }

  /** Splitting a string that starts with a separator-free prefix `a`
      extends the first piece of the rest by `a`. */
  lemma {:induction false} SplitPrefix(a: string, b: string, sep: char)
    requires sep !in a
    ensures Split(a + b, sep) == [a + Split(b, sep)[0]] + Split(b, sep)[1..]
  {
    if a == [] {
      var parts := Split(b, sep);
      assert a + b == b;
      assert a + parts[0] == parts[0];
      assert parts == [parts[0]] + parts[1..];
    } else {
      SplitPrefix(a[1..], b, sep);
      assert a + b == [a[0]] + (a[1..] + b);
      assert (a + b)[1..] == a[1..] + b;
      assert [a[0]] + (a[1..] + Split(b, sep)[0]) == a + Split(b, sep)[0];
    }
  }

  /** Splitting the join of separator-free pieces gives back the pieces. */
  lemma {:induction false} SplitJoin(parts: seq<string>, sep: char)
    requires |parts| >= 1
    requires forall i :: 0 <= i < |parts| ==> sep !in parts[i]
    ensures Split(Join(parts, [sep]), sep) == parts
  {
    if |parts| == 1 {
      assert Join(parts, [sep]) == parts[0];
    } else {
      var tail := Join(parts[1..], [sep]);
      SplitJoin(parts[1..], sep);
      assert Join(parts, [sep]) == parts[0] + ([sep] + tail);
      SplitPrefix(parts[0], [sep] + tail, sep);
      assert ([sep] + tail)[1..] == tail;
      assert Split([sep] + tail, sep) == [""] + parts[1..];
      assert parts[0] + "" == parts[0];
      assert ([""] + parts[1..])[1..] == parts[1..];
      assert parts == [parts[0]] + parts[1..];
    }
  }

  /** A suite's button label, `suite.name.split('(')[0]`: the text of
      the suite name before its first `(`. */
  function Label(name: string): string
  {
    Split(name, '(')[0]
  }

  /** A suite's description, the second piece of `suite.name.split('(')`:
      the text between the first `(` and the next `(` or the end. A name
      without `(` has none (the source reads `undefined`). */
  function Description(name: string): Option<string>
  {
    var parts := Split(name, '(');
    if |parts| >= 2 then Some(parts[1]) else None
  }

  /** The label is the text before the first `(`, the description the
      text after it up to the next `(` or the end, and the description is
      missing exactly when the name has no `(`. */
  lemma LabelAndDescription(name: string)
    ensures '(' !in Label(name)
    ensures Description(name).None? <==> '(' !in name
    ensures '(' !in name ==> Label(name) == name
    ensures Description(name).Some? ==>
      var n, d := |Label(name)|, Description(name).value;
      && n + 1 + |d| <= |name|
      && name[..n] == Label(name)
      && name[n] == '('
      && name[n + 1..n + 1 + |d|] == d
      && '(' !in d
      && (n + 1 + |d| == |name| || name[n + 1 + |d|] == '(')
  {
    var parts := Split(name, '(');
    JoinSplit(name, '(');
    if |parts| >= 2 {
      var rest := Join(parts[1..], "(");
      assert name == parts[0] + "(" + rest;
      if |parts| == 2 {
        assert rest == parts[1];
      } else {
        assert rest == parts[1] + "(" + Join(parts[2..], "(");
      }
      var n := |parts[0]|;
      assert name[..n] == parts[0];
      assert name[n + 1..n + 1 + |parts[1]|] == parts[1];
    } else {
      assert name == parts[0];
    }
  }
}
