/** The documents exercised by the unit tests of `src/prompt.rs`, decoded, and the
    results the model gives for them. */
module Scenarios {
  import opened Wrappers
  import opened Parameters
  import opened Templates
  import opened Render
  import opened Dispatch

  const GoogleParameters: seq<Parameter> :=
    [Parameter("maxOutputTokens", Int(256)), Parameter("temperature", Float(0.4))]

  const HelloColumns: seq<CompletionExampleColumn> :=
    [CompletionExampleColumn("input", ["a", "b"], Some("c")),
     CompletionExampleColumn("output", ["x", "y"], None)]

  /** The completion template of the unit tests. */
  const HelloWorld: Completion :=
    Completion("completion", "google", "text-bison", "Write a hello world in java",
               Some(GoogleParameters), Some(HelloColumns))

  /** The completion document of the unit tests. */
  const CompletionDoc: Document :=
    Document(Present("completion"), Present("google"), Present("text-bison"),
             Present("Write a hello world in java"), Present(GoogleParameters),
             Present(HelloColumns), Mistyped, Absent, Absent)

  /** The chat document of the unit tests. */
  const ChatDoc: Document :=
    Document(Present("chat"), Present("google"), Present("chat-bison"), Absent,
             Present(GoogleParameters), Mistyped,
             Present([ChatExample("who are u?", Some("I'm google"))]), Absent,
             Present([Message("what's your name?", None)]))

  /** The completion document loads as a completion with the given fields,
      both lists in document order. */
  lemma CompletionDocLoads()
    ensures DeserializePrompt(CompletionDoc) == Success(CompletionPrompt(HelloWorld))
  {
  }

  /** The chat document loads as a chat with both parameters and the one
      example exchange in document order, no context, and its one message. */
  lemma ChatDocLoads()
    ensures DeserializePrompt(ChatDoc) ==
      Success(ChatPrompt(Chat("chat", "google", "chat-bison", Some(GoogleParameters),
        Some([ChatExample("who are u?", Some("I'm google"))]), None,
        Some([Message("what's your name?", None)]))))
  {
  }

  /** A document tagged "unknown" loads as `Unknown`. */
  lemma UnknownDocLoads()
    ensures DeserializePrompt(Document(Present("unknown"), Absent, Absent, Absent, Absent,
                                       Absent, Absent, Absent, Absent)) == Success(Unknown)
  {
  }

  /** Two example rows, then the test row with an empty test value for the
      `output` column: the text `test_get_examples_count` expects, one row per
      piece. */
  lemma HelloWorldRendering()
    ensures ExampleCount(HelloWorld) == 2
    ensures FinalPrompt(HelloWorld) ==
      "Write a hello world in java\n\n"
      + "input: a\noutput: x\n\n"
      + "input: b\noutput: y\n\n"
      + "input: c\noutput: \n"
  {
    HelloWorldCount();
    HelloWorldRows();
    assert HelloWorld.examples == Some(HelloColumns);
    TwoColumnsRendering(HelloWorld, "input: a\noutput: x\n\n", "input: b\noutput: y\n\n", "input: c\noutput: \n");
    assert HelloWorld.prompt + "\n\n" == "Write a hello world in java\n\n";
  }

  lemma HelloWorldCount()
    ensures ExampleCount(HelloWorld) == 2
  {
  }

  lemma HelloWorldRows()
    ensures RowText(HelloColumns, 0) == "input: a\noutput: x\n\n"
    ensures RowText(HelloColumns, 1) == "input: b\noutput: y\n\n"
    ensures Concat(TestLines(HelloColumns)) == "input: c\noutput: \n"
  {
    HelloWorldFirstRow();
    HelloWorldSecondRow();
    HelloWorldTestRow();
  }

  lemma HelloWorldFirstRow()
    ensures RowText(HelloColumns, 0) == "input: a\noutput: x\n\n"
  {
  }

  lemma HelloWorldSecondRow()
    ensures RowText(HelloColumns, 1) == "input: b\noutput: y\n\n"
  {
  }

  lemma HelloWorldTestRow()
    ensures Concat(TestLines(HelloColumns)) == "input: c\noutput: \n"
  {
    TestRowOfTwo(HelloColumns);
    assert HelloColumns[0].name == "input" && HelloColumns[1].name == "output";
    assert HelloColumns[0].test.GetOr("") == "c" && HelloColumns[1].test.GetOr("") == "";
    assert Line("input", "c") == "input: c\n" && Line("output", "") == "output: \n";
    assert "input: c\n" + "output: \n" == "input: c\noutput: \n";
  }

  /** Typed lookups on the example parameters: an integer as i32, a float as
      f32, an absent name, and a boolean requested of an integer. */
  lemma GoogleParameterLookups()
    ensures ParamAsI32(Some(GoogleParameters), "maxOutputTokens") == Success(Some(256))
    ensures ParamAsI32(Some(GoogleParameters), "topK") == Success(None)
    ensures ParamAsF32(Some(GoogleParameters), "temperature") == Success(Some(0.4))
    ensures ParamAsBool(Some(GoogleParameters), "maxOutputTokens") ==
      Failure(TypeMismatch("maxOutputTokens", Int(256)))
  {
  }

  /** A parameter holding a list (a stop-sequence list, say) does not stop
      the document from loading; only a typed accessor on it faults. */
  lemma NonScalarParameterLoads()
    ensures var ps := [Parameter("stopSequences", NonScalar)];
      var d := Document(Present("completion"), Present("google"), Present("text-bison"),
                        Present("P"), Present(ps), Absent, Absent, Absent, Absent);
      DeserializePrompt(d).Success? && DeserializePrompt(d).value.CompletionPrompt?
      && ParamAsStr(Some(ps), "stopSequences") == Failure(TypeMismatch("stopSequences", NonScalar))
      && ParamAsI32(Some(ps), "stopSequences").Failure?
  {
  }

  const RaggedColumns: seq<CompletionExampleColumn> :=
    [CompletionExampleColumn("q", ["1"], None),
     CompletionExampleColumn("a", ["x", "y", "z"], Some("t"))]

  const Ragged: Completion := Completion("completion", "v", "m", "P", None, Some(RaggedColumns))

  /** A one-value column beside a three-value column: three rows, the short
      column showing the empty string in the last two. */
  lemma RaggedRendering()
    ensures ExampleCount(Ragged) == 3
    ensures FinalPrompt(Ragged) ==
      "P\n\n" + "q: 1\na: x\n\n" + "q: \na: y\n\n" + "q: \na: z\n\n" + "q: \na: t\n"
  {
    assert ExampleCount(Ragged) == 3 by {
      assert |RaggedColumns[0].values| == 1 && |RaggedColumns[1].values| == 3;
    }
    RaggedRows();
    assert Ragged.examples == Some(RaggedColumns);
    ThreeRowsRendering(Ragged, "q: 1\na: x\n\n", "q: \na: y\n\n", "q: \na: z\n\n", "q: \na: t\n");
    assert Ragged.prompt + "\n\n" == "P\n\n";
  }

  lemma RaggedRows()
    ensures RowText(RaggedColumns, 0) == "q: 1\na: x\n\n"
    ensures RowText(RaggedColumns, 1) == "q: \na: y\n\n"
    ensures RowText(RaggedColumns, 2) == "q: \na: z\n\n"
    ensures Concat(TestLines(RaggedColumns)) == "q: \na: t\n"
  {
    var q := RaggedColumns[0];
    var a := RaggedColumns[1];
    assert q.name == "q" && a.name == "a";
    assert Cell(q, 0) == "1" && Cell(a, 0) == "x";
    assert Cell(q, 1) == "" && Cell(a, 1) == "y";
    assert Cell(q, 2) == "" && Cell(a, 2) == "z";
    assert q.test.GetOr("") == "" && a.test.GetOr("") == "t";
    RowOfTwo(RaggedColumns, 0);
    RowOfTwo(RaggedColumns, 1);
    RowOfTwo(RaggedColumns, 2);
    TestRowOfTwo(RaggedColumns);
    assert Line("q", "1") == "q: 1\n" && Line("q", "") == "q: \n";
    assert Line("a", "x") == "a: x\n" && Line("a", "y") == "a: y\n";
    assert Line("a", "z") == "a: z\n" && Line("a", "t") == "a: t\n";
    assert "q: 1\n" + "a: x\n" + "\n" == "q: 1\na: x\n\n";
    assert "q: \n" + "a: y\n" + "\n" == "q: \na: y\n\n";
    assert "q: \n" + "a: z\n" + "\n" == "q: \na: z\n\n";
    assert "q: \n" + "a: t\n" == "q: \na: t\n";
  }

  /** A table with three rows renders as prompt, blank line, the three rows
      and the test row. */
  lemma ThreeRowsRendering(c: Completion, row0: string, row1: string, row2: string, test: string)
    requires c.examples.Some? && ExampleCount(c) == 3
    requires RowText(c.examples.value, 0) == row0 && RowText(c.examples.value, 1) == row1
    requires RowText(c.examples.value, 2) == row2
    requires Concat(TestLines(c.examples.value)) == test
    ensures FinalPrompt(c) == c.prompt + "\n\n" + row0 + row1 + row2 + test
  {
    var cols := c.examples.value;
    var a := c.prompt + "\n\n";
    TwoRowsText(cols, row0, row1);
    ExampleRowsStep(cols, 2);
    calc {
      FinalPrompt(c);
      a + (Concat(ExampleRows(cols, 3)) + test);
      { AppendAssoc(a, Concat(ExampleRows(cols, 3)), test); }
      (a + Concat(ExampleRows(cols, 3))) + test;
      (a + ((row0 + row1) + row2)) + test;
      { AppendAssoc(a, row0 + row1, row2); }
      ((a + (row0 + row1)) + row2) + test;
      { AppendAssoc(a, row0, row1); }
      a + row0 + row1 + row2 + test;
    }
  }

  /** The first two example rows, joined. */
  lemma TwoRowsText(cols: seq<CompletionExampleColumn>, row0: string, row1: string)
    requires RowText(cols, 0) == row0 && RowText(cols, 1) == row1
    ensures Concat(ExampleRows(cols, 2)) == row0 + row1
  {
    assert ExampleRows(cols, 0) == [];
    ExampleRowsStep(cols, 0);
    ExampleRowsStep(cols, 1);
    assert "" + row0 == row0;
  }

  /** The two lines `first: v\n` and `second: w\n`, joined. */
  function TwoLines(first: string, v: string, second: string, w: string): string {
    Line(first, v) + Line(second, w)
  }

  lemma RowOfTwo(cols: seq<CompletionExampleColumn>, i: nat)
    requires |cols| == 2
    ensures RowText(cols, i) == TwoLines(cols[0].name, Cell(cols[0], i), cols[1].name, Cell(cols[1], i)) + "\n"
  {
    var ls := RowLines(cols, i);
    assert ls == [ls[0]] + [ls[1]];
    ConcatSnoc([ls[0]], ls[1]);
  }

  lemma TestRowOfTwo(cols: seq<CompletionExampleColumn>)
    requires |cols| == 2
    ensures Concat(TestLines(cols)) ==
      TwoLines(cols[0].name, cols[0].test.GetOr(""), cols[1].name, cols[1].test.GetOr(""))
  {
    var ls := TestLines(cols);
    assert ls == [ls[0]] + [ls[1]];
    ConcatSnoc([ls[0]], ls[1]);
  }

  /** A table with two rows renders as prompt, blank line, both rows and
      the test row. */
  lemma TwoColumnsRendering(c: Completion, row0: string, row1: string, test: string)
    requires c.examples.Some? && ExampleCount(c) == 2
    requires RowText(c.examples.value, 0) == row0 && RowText(c.examples.value, 1) == row1
    requires Concat(TestLines(c.examples.value)) == test
    ensures FinalPrompt(c) == c.prompt + "\n\n" + row0 + row1 + test
  {
    var cols := c.examples.value;
    var a := c.prompt + "\n\n";
    TwoRowsText(cols, row0, row1);
    calc {
      FinalPrompt(c);
      a + (Concat(ExampleRows(cols, 2)) + test);
      { AppendAssoc(a, Concat(ExampleRows(cols, 2)), test); }
      (a + (row0 + row1)) + test;
      { AppendAssoc(a, row0, row1); }
      a + row0 + row1 + test;
    }
  }
}
