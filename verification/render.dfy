/** Rendering of a completion template: the number of example rows of its
    (possibly ragged) example table, and the final prompt text built from
    the base prompt, the example rows and the test row. */
module Render {
  import opened Wrappers
  import opened Templates

  /** The strings of `ss` joined end to end. */
  function Concat(ss: seq<string>): string {
    if |ss| == 0 then "" else ss[0] + Concat(ss[1..])
  }

  lemma {:induction false} ConcatSnoc(ss: seq<string>, s: string)
    ensures Concat(ss + [s]) == Concat(ss) + s
  {
    if |ss| == 0 {
      assert ss + [s] == [s];
    } else {
      assert (ss + [s])[1..] == ss[1..] + [s];
      ConcatSnoc(ss[1..], s);
    }
  }

  lemma {:induction false} ConcatAppend(xs: seq<string>, ys: seq<string>)
    ensures Concat(xs + ys) == Concat(xs) + Concat(ys)
  {
    if |xs| == 0 {
      assert xs + ys == ys;
    } else {
      assert (xs + ys)[1..] == xs[1..] + ys;
      ConcatAppend(xs[1..], ys);
    }
  }

  /** Splitting a list at `k` splits its concatenation around element `k`. */
  lemma ConcatAround(ss: seq<string>, k: int)
    requires 0 <= k < |ss|
    ensures Concat(ss) == Concat(ss[..k]) + ss[k] + Concat(ss[k + 1..])
  {
    assert ss == ss[..k] + ss[k..];
    ConcatAppend(ss[..k], ss[k..]);
    assert ss[k..][1..] == ss[k + 1..];
    AppendAssoc(Concat(ss[..k]), ss[k], Concat(ss[k + 1..]));
  }

  /** One rendered line, `"{name}: {value}\n"`. */
  function Line(name: string, value: string): string {
    name + ": " + value + "\n"
  }

  /** The value a column shows in example row `i`: its `i`-th value, or the
      empty string when the column is shorter than the table. */
  function Cell(col: CompletionExampleColumn, i: nat): (v: string)
    ensures i < |col.values| ==> v == col.values[i]
    ensures i >= |col.values| ==> v == ""
  {
    if i < |col.values| then col.values[i] else ""
  }

  /** The longest column, scanning the columns in order. */
  function MaxLength(cols: seq<CompletionExampleColumn>): (n: nat)
    ensures forall k :: 0 <= k < |cols| ==> |cols[k].values| <= n
    ensures |cols| == 0 ==> n == 0
    ensures |cols| > 0 ==> exists k :: 0 <= k < |cols| && n == |cols[k].values|
  {
    if |cols| == 0 then 0
    else
      var m := MaxLength(cols[..|cols| - 1]);
      var last := |cols[|cols| - 1].values|;
      if last > m then last else m
  }

  /** `example_count`: the number of example rows, which is the length of
      the longest column, and 0 without columns. */
  function ExampleCount(c: Completion): (n: nat)
    ensures c.examples.None? ==> n == 0
    ensures c.examples == Some([]) ==> n == 0
    ensures c.examples.Some? ==>
      forall k :: 0 <= k < |c.examples.value| ==> |c.examples.value[k].values| <= n
    ensures c.examples.Some? && |c.examples.value| > 0 ==>
      exists k :: 0 <= k < |c.examples.value| && n == |c.examples.value[k].values|
  {
    match c.examples
    case None => 0
    case Some(cols) => MaxLength(cols)
  }

  /** The lines of example row `i`, one per column in declared order. */
  function RowLines(cols: seq<CompletionExampleColumn>, i: nat): (ls: seq<string>)
    ensures |ls| == |cols|
    ensures forall k :: 0 <= k < |cols| ==> ls[k] == Line(cols[k].name, Cell(cols[k], i))
  {
    seq(|cols|, k requires 0 <= k < |cols| => Line(cols[k].name, Cell(cols[k], i)))
  }

  /** The text of example row `i`: its lines followed by a blank line. */
  function RowText(cols: seq<CompletionExampleColumn>, i: nat): string {
    Concat(RowLines(cols, i)) + "\n"
  }

  /** The texts of example rows `0 .. n-1`, in order. */
  function ExampleRows(cols: seq<CompletionExampleColumn>, n: nat): (rows: seq<string>)
    ensures |rows| == n
    ensures forall i :: 0 <= i < n ==> rows[i] == RowText(cols, i)
  {
    seq(n, i requires 0 <= i => RowText(cols, i))
  }

  /** The lines of the test row, one per column in declared order, each
      showing the column's test value or the empty string. */
  function TestLines(cols: seq<CompletionExampleColumn>): (ls: seq<string>)
    ensures |ls| == |cols|
    ensures forall k :: 0 <= k < |cols| ==> ls[k] == Line(cols[k].name, cols[k].test.GetOr(""))
  {
    seq(|cols|, k requires 0 <= k < |cols| => Line(cols[k].name, cols[k].test.GetOr("")))
  }

  /** `final_prompt`: the base prompt and a blank line, then every example
      row, then the test row. Without an example table only the base prompt
      and the blank line remain. */
  function FinalPrompt(c: Completion): (r: string)
    ensures c.prompt + "\n\n" <= r
    ensures c.examples.None? ==> r == c.prompt + "\n\n"
  {
    c.prompt + "\n\n" +
    match c.examples
    case None => ""
    case Some(cols) => Body(cols, ExampleCount(c))
  }

  /** What follows the base prompt's blank line: `n` example rows, then the
      test row. */
  function Body(cols: seq<CompletionExampleColumn>, n: nat): string {
    Concat(ExampleRows(cols, n)) + Concat(TestLines(cols))
  }

  /** `example_count` as the Rust code computes it: one pass over the
      columns keeping the largest length seen so far. */
  method CountExamples(c: Completion) returns (maxLength: nat)
    ensures maxLength == ExampleCount(c)
  {
    maxLength := 0;
    if c.examples.Some? {
      var columns := c.examples.value;
      for i := 0 to |columns|
        invariant maxLength == MaxLength(columns[..i])
      {
        assert columns[..i + 1][..i] == columns[..i];
        if |columns[i].values| > maxLength {
          maxLength := |columns[i].values|;
        }
      }
      assert columns[..|columns|] == columns;
    }
  }

  /** One iteration of `final_prompt`'s row loop: every column's line for
      example row `i`, then the blank line that closes the row. */
  method AppendRow(prompt: string, columns: seq<CompletionExampleColumn>, i: nat) returns (out: string)
    ensures out == prompt + RowText(columns, i)
  {
    out := prompt;
    var lines := RowLines(columns, i);
    for k := 0 to |columns|
      invariant out == prompt + Concat(lines[..k])
    {
      assert lines[..k + 1] == lines[..k] + [lines[k]];
      ConcatSnoc(lines[..k], lines[k]);
      out := out + Line(columns[k].name, Cell(columns[k], i));
    }
    assert lines[..|columns|] == lines;
    out := out + "\n";
  }

  /** `final_prompt`'s test-row loop: every column's line with its test value. */
  method AppendTestRow(prompt: string, columns: seq<CompletionExampleColumn>) returns (out: string)
    ensures out == prompt + Concat(TestLines(columns))
  {
    out := prompt;
    var tests := TestLines(columns);
    for k := 0 to |columns|
      invariant out == prompt + Concat(tests[..k])
    {
      assert tests[..k + 1] == tests[..k] + [tests[k]];
      ConcatSnoc(tests[..k], tests[k]);
      out := out + Line(columns[k].name, columns[k].test.GetOr(""));
    }
    assert tests[..|columns|] == tests;
  }

  /** Each further example row extends the text of the earlier ones. */
  lemma ExampleRowsStep(cols: seq<CompletionExampleColumn>, n: nat)
    ensures Concat(ExampleRows(cols, n + 1)) == Concat(ExampleRows(cols, n)) + RowText(cols, n)
  {
    assert ExampleRows(cols, n + 1) == ExampleRows(cols, n) + [RowText(cols, n)];
    ConcatSnoc(ExampleRows(cols, n), RowText(cols, n));
  }

  /** `final_prompt`'s outer loop: example rows `0 .. count-1`, in order. */
  method AppendRows(prompt: string, columns: seq<CompletionExampleColumn>, count: nat) returns (out: string)
    ensures out == prompt + Concat(ExampleRows(columns, count))
  {
    out := prompt;
    for i := 0 to count
      invariant out == prompt + Concat(ExampleRows(columns, i))
    {
      out := AppendRow(out, columns, i);
      ExampleRowsStep(columns, i);
      AppendAssoc(prompt, Concat(ExampleRows(columns, i)), RowText(columns, i));
    }
  }

  /** `final_prompt` as the Rust code computes it: appending one line at a
      time, row by row and column by column, then the test row. */
  method RenderFinalPrompt(c: Completion) returns (prompt: string)
    ensures prompt == FinalPrompt(c)
  {
    var base := c.prompt + "\n\n";
    prompt := base;
    if c.examples.Some? {
      var columns := c.examples.value;
      var count := CountExamples(c);
      prompt := AppendRows(prompt, columns, count);
      prompt := AppendTestRow(prompt, columns);
      AppendAssoc(base, Concat(ExampleRows(columns, count)), Concat(TestLines(columns)));
    }
  }

  lemma AppendAssoc(a: string, b: string, c: string)
    ensures (a + b) + c == a + (b + c)
  {
  }

  /** With no example table, or an empty one, the final prompt is the base
      prompt followed by one blank line and nothing else. */
  lemma NoColumnsRendersBaseOnly(c: Completion)
    requires c.examples == None || c.examples == Some([])
    ensures FinalPrompt(c) == c.prompt + "\n\n"
  {
  }

  /** When every column is empty there are no example rows: the test row
      follows the base prompt's blank line directly. */
  lemma EmptyColumnsRenderTestRowOnly(c: Completion)
    requires c.examples.Some?
    requires forall k :: 0 <= k < |c.examples.value| ==> c.examples.value[k].values == []
    ensures FinalPrompt(c) == c.prompt + "\n\n" + Concat(TestLines(c.examples.value))
  {
    var cols := c.examples.value;
    assert ExampleCount(c) == 0 by {
      if |cols| > 0 {
        var k :| 0 <= k < |cols| && ExampleCount(c) == |cols[k].values|;
      }
    }
    assert ExampleRows(cols, 0) == [];
    assert Body(cols, 0) == Concat(TestLines(cols));
  }

  /** Where the line of column `k` in example row `i` sits: after all earlier
      rows and after the earlier columns of row `i`, and before the later
      columns, the row's blank line, the later rows and the test row. A
      column shorter than the table shows the empty string there. */
  lemma CellInPlace(c: Completion, i: nat, k: nat)
    requires c.examples.Some?
    requires i < ExampleCount(c) && k < |c.examples.value|
    ensures var cols := c.examples.value;
      var rows := ExampleRows(cols, ExampleCount(c));
      FinalPrompt(c) ==
        c.prompt + "\n\n" + Concat(rows[..i]) + rows[i] + Concat(rows[i + 1..]) + Concat(TestLines(cols))
    ensures var cols := c.examples.value;
      var lines := RowLines(cols, i);
      ExampleRows(cols, ExampleCount(c))[i] ==
        Concat(lines[..k]) + Line(cols[k].name, Cell(cols[k], i)) + Concat(lines[k + 1..]) + "\n"
  {
    var cols := c.examples.value;
    var rows := ExampleRows(cols, ExampleCount(c));
    var lines := RowLines(cols, i);
    ConcatAround(rows, i);
    ConcatAround(lines, k);
    var a := c.prompt + "\n\n";
    var t := Concat(TestLines(cols));
    var r1 := Concat(rows[..i]);
    var r2 := Concat(rows[i + 1..]);
    assert FinalPrompt(c) == a + (((r1 + rows[i]) + r2) + t);
    AppendAssoc(r1 + rows[i], r2, t);
    AppendAssoc(a, r1 + rows[i], r2 + t);
    AppendAssoc(a, r1, rows[i]);
    AppendAssoc(a + r1 + rows[i], r2, t);
  }

  /** The test row closes the final prompt: its line for column `k` follows
      every example row and the test lines of the earlier columns, and only
      the later columns' test lines follow it, with no blank line after. */
  lemma TestLineInPlace(c: Completion, k: nat)
    requires c.examples.Some? && k < |c.examples.value|
    ensures var cols := c.examples.value;
      var tests := TestLines(cols);
      FinalPrompt(c) ==
        c.prompt + "\n\n" + Concat(ExampleRows(cols, ExampleCount(c)))
        + Concat(tests[..k]) + Line(cols[k].name, cols[k].test.GetOr("")) + Concat(tests[k + 1..])
  {
    var cols := c.examples.value;
    var tests := TestLines(cols);
    ConcatAround(tests, k);
    var ar := c.prompt + "\n\n" + Concat(ExampleRows(cols, ExampleCount(c)));
    var t1 := Concat(tests[..k]);
    var x := Line(cols[k].name, cols[k].test.GetOr(""));
    var t2 := Concat(tests[k + 1..]);
    AppendAssoc(c.prompt + "\n\n", Concat(ExampleRows(cols, ExampleCount(c))), Concat(tests));
    AppendAssoc(ar, t1 + x, t2);
    AppendAssoc(ar, t1, x);
  }
}
