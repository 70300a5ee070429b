# Prompt templates, modelled in Dafny

This project models the core of `src/prompt.rs` from a Rust library for
prompt templates. A template describes one call to a language model: a
vendor, a model name, parameters, and either

- a **completion** prompt with a table of example columns, or
- a **chat** set-up with example exchanges, a context and messages.

The model covers four parts of that file:

- **Rendering a completion** (`example_count`, `final_prompt`). The number of
  example rows is the length of the longest column, because columns may be
  ragged. The final prompt is the base prompt and a blank line. Then comes
  every example row: one `name: value` line per column, in declared order,
  with missing cells shown as the empty string, and one blank line after
  each row. Last comes the test row, with each column's test value or the
  empty string.
- **First-match parameter lookup** (`find_parameter`).
- **Typed accessors** (`find_parameter_as_i32/f32/str/bool`) on completions
  and chats. Where the Rust code panics in `unwrap()` because the value has the
  wrong kind, the model returns a `TypeMismatch` failure.
- **Dispatch on the `type` tag** (`deserialize_prompt`). The tag picks the
  completion variant, the chat variant, or `Unknown`.

Files:

- `wrappers.dfy`: `Option` and `Result`.
- `parameters.dfy`: the parameter value, lookup and the typed accessors.
- `templates.dfy`: the template data types and their accessor members.
- `render.dfy`: `example_count` and `final_prompt`. Each is given as a
  declarative definition, plus a method that builds the result the way the
  Rust loops do, proved equal to that definition.
- `dispatch.dfy`: the decoded document and `deserialize_prompt`.
- `scenarios.dfy`: the documents from the unit tests of `src/prompt.rs` and the
  results the model gives for them.

Dafny's unbounded `int` and `nat` stand for `usize`, `i64` and `i32`.
`find_parameter_as_i32` does two things that are written out explicitly.
First, `as_i64` rejects integers outside the signed 64-bit range. Second,
the `as i32` cast keeps the low 32 bits (two's complement). For a failed
`unwrap()` the code aborts, but the model returns a failure value: an
accessor gives `Failure(TypeMismatch(..))`, and dispatch gives
`Failure(MalformedDocument)` or `Failure(SchemaMismatch(tag))`.

## Model

| member | source | states |
|---|---|---|
| `Parameters.FindIn` | src/prompt.rs:50-54 | The search returns nothing exactly when no parameter has the name. When one does, it returns the value of the parameter at the first position with that name. |
| `Parameters.FindParameter` | src/prompt.rs:46-58 | With no parameter list the result is `None`. Otherwise the result is `None` exactly when no name matches exactly, and it is the first match's value when one does. |
| `Parameters.FindIgnoresLaterEntries` | src/prompt.rs:51-53 | Once a list contains the name, appending more parameters does not change the lookup. |
| `Parameters.FirstEntryWins` | src/prompt.rs:53 | An entry whose name no earlier entry has is the one returned, whatever entries of the same name follow it. So with duplicate names the earliest entry wins. |
| `Parameters.WrapI32` | src/prompt.rs:101 | The `as i32` cast gives a value in the 32-bit range that is congruent to the input modulo 2^32. The cast is the identity on values already in range. |
| `Parameters.Lookup` | src/prompt.rs:100-114 | The shared accessor shape `find_parameter(..).map(narrow.unwrap())`. It is absent exactly when the lookup is absent. It fails, naming the parameter and its value, exactly when the value found does not narrow. Otherwise it yields the narrowed value. |
| `Parameters.ParamAsI32` | src/prompt.rs:100-102 | Absent exactly when the lookup is absent. It faults exactly when the value found is not an integer in the signed 64-bit range. An integer in the 64-bit range comes back cast to 32 bits (`WrapI32`), so results lie in the 32-bit range and an integer already in that range comes back unchanged. |
| `Parameters.ParamAsF32` | src/prompt.rs:104-106 | Absent exactly when the lookup is absent. It faults exactly when the value found is neither an integer nor a float. |
| `Parameters.ParamAsStr` | src/prompt.rs:108-110 | Absent exactly when the lookup is absent. It faults exactly when the value found is not a string, and otherwise yields that string. |
| `Parameters.ParamAsBool` | src/prompt.rs:112-114 | Absent exactly when the lookup is absent. It faults exactly when the value found is not a boolean, and otherwise yields that boolean. It never falls back to a default. |
| `Templates.AccessorsAgree` | src/prompt.rs:129-145 | A chat and a completion that hold the same parameters give the same result from each of the four typed accessors. |
| `Render.MaxLength` | src/prompt.rs:63-68 | The result is at least the length of every column. For a non-empty table it equals some column's length, so it is the maximum. For no columns it is 0. |
| `Render.ExampleCount` | src/prompt.rs:61-71 | `example_count` is 0 when there is no table or the table is empty. Otherwise it bounds every column's length and equals one of them. |
| `Render.CountExamples` | src/prompt.rs:61-71 | The single pass of `example_count`, keeping the largest length seen so far, computes `ExampleCount`. |
| `Render.FinalPrompt` | src/prompt.rs:73-98 | The final prompt always starts with the base prompt and `"\n\n"`. Without an example table it is exactly that. |
| `Render.AppendRow` | src/prompt.rs:78-86 | One pass of the column loop appends the text of example row `i`: each column's line in order, then a blank line. |
| `Render.AppendRows` | src/prompt.rs:77-87 | The row loop appends the texts of rows `0 .. count-1`, in order. |
| `Render.AppendTestRow` | src/prompt.rs:88-95 | The test loop appends one line per column, in order, with the column's test value or the empty string. |
| `Render.RenderFinalPrompt` | src/prompt.rs:73-98 | Building the prompt line by line as `final_prompt` does gives exactly the declarative final prompt. |
| `Render.NoColumnsRendersBaseOnly` | src/prompt.rs:74-97 | With no table, or an empty list of columns, the final prompt is the base prompt followed by `"\n\n"` and nothing else. |
| `Render.EmptyColumnsRenderTestRowOnly` | src/prompt.rs:77-95 | When every column has no values there are no example rows, and the test row follows the blank line directly. |
| `Render.CellInPlace` | src/prompt.rs:77-87 | For row `i` below `example_count` and column `k`, row `i` sits after rows `0 .. i-1`. Within the row, column `k`'s line `name: cell` follows the lines of the earlier columns, and the row ends with a blank line. A short column's cell is the empty string. |
| `Render.TestLineInPlace` | src/prompt.rs:88-95 | The test row comes after all example rows. Column `k`'s test line follows those of the earlier columns. Only the later columns' test lines come after it, with no trailing blank line. |
| `Dispatch.DecodeCompletion` | src/prompt.rs:35-44 | A document decodes as a completion exactly when `vendor`, `model` and `prompt` are present and `parameters` and `examples` are absent or well shaped. |
| `Dispatch.DecodeChat` | src/prompt.rs:117-127 | A document decodes as a chat exactly when `vendor` and `model` are present and the optional keys are absent or well shaped. |
| `Dispatch.DeserializePrompt` | src/prompt.rs:154-167 | A missing or malformed tag is a malformed document. "completion" and "chat" give their variant exactly when the document fits that schema, carrying every field unchanged. Otherwise the result is a schema mismatch naming the tag. Any other tag gives `Unknown` and never an error. |
| `Dispatch.RoundTrip` | src/prompt.rs:154-167 | Writing a correctly tagged template as a document and loading it gives back the same template, with every list in its order. |
| `Dispatch.LoadedIsWellTagged` | src/prompt.rs:154-167 | Whatever loads successfully carries its own kind's tag and survives being written out and loaded again. |
| `Dispatch.UnknownTagNeverFails` | src/prompt.rs:165 | An unknown tag yields `Unknown` whatever the rest of the document holds. |
| `Scenarios.CompletionDocLoads` | src/prompt.rs:174-224 | The completion document of the tests loads as a completion with vendor `google`, model `text-bison`, the base prompt, and both lists in document order. |
| `Scenarios.ChatDocLoads` | src/prompt.rs:227-273 | The chat document of the tests loads as exactly the expected chat: vendor `google`, model `chat-bison`, the parameters `maxOutputTokens` 256 and `temperature` 0.4 in order, the one example exchange, no context, and its one message. |
| `Scenarios.UnknownDocLoads` | src/prompt.rs:277-289 | A document tagged `unknown` loads as `Unknown`. |
| `Scenarios.HelloWorldRendering` | src/prompt.rs:292-334 | For the test's template, `example_count` is 2 and the final prompt is exactly the text the test expects. |
| `Scenarios.GoogleParameterLookups` | src/prompt.rs:180-184 | On the tests' parameters, `maxOutputTokens` reads as the i32 256, an absent name reads as absent, and `temperature` reads as the float 0.4. Asking for `maxOutputTokens` as a boolean is a type mismatch. |
| `Scenarios.NonScalarParameterLoads` | src/prompt.rs:29-33 | A completion document whose parameter value is a list still loads. Asking for that parameter as a string or an integer faults. |
| `Scenarios.RaggedRendering` | src/prompt.rs:77-87 | A one-value column next to a three-value column gives three rows. The short column shows `q: ` in the last two rows. |

## Left out

- YAML text parsing and the `serde` derives (`serde_yaml::from_str`) come from a foreign library. The model starts from a decoded `Document`. Each key there is absent, present, or present in a shape the variant's `serde` decoder rejects (`Mistyped`). A parameter whose value is a list or a mapping is not mistyped: any YAML node is accepted there. An explicit YAML `null` for an optional key counts as absent.
- The `PromptType` pre-parse (src/prompt.rs:4-8) is only the `promptType` field of `Document`. Its failure is `MalformedDocument`.
- A parameter value that is null, a sequence or a mapping is the single value `NonScalar`. Its contents are not kept, because no typed accessor reads them: every accessor faults on it. YAML tagged nodes are not modelled.
- `Parameters.ParamAsF32`: the value is returned as the exact real read from the document. The f64 reading of a large integer and the narrowing to f32 are not modelled, because floating point rounding is outside the model. The contract covers only when the result is absent, present or a fault.
- Panics and their messages, `Debug` formatting and `to_string`/`clone` copies have no counterpart. A failed `unwrap()` is a `Failure` value.
- The chat fields `examples`, `context` and `messages` are carried as data. The Rust code has no logic for them.
- `usize` overflow in `example_count` cannot happen for lists held in memory. The count is a `nat`.
