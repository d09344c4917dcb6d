# Ether.Outcomes — OutcomeResult in Dafny

This project models `OutcomeResult<TValue>` from Ether.Outcomes. An outcome wraps a method's result with five things:

- a success flag, with `Failure` computed from it;
- an ordered list of messages;
- a payload (`Value`) that callers may still assign after construction;
- an optional integer status code;
- a string-keyed metadata bag (`Keys`).

There are three ways to build an outcome:

- from scratch: the flag is given, and everything else starts empty or defaulted;
- from a typed outcome: every field is copied, the payload included;
- from a payload-less outcome: every field is copied except the payload, which becomes `default(TValue)`.

Both derivations hand the new outcome the source's message list object and metadata dictionary object. They are not copied. So a message appended through one outcome is visible through the other, and so is a key set through either one.

Layout:

- `wrappers.dfy`: module `Wrappers`, the `Option` type. It models the nullable status code and the optional delimiter.
- `formats.dfy`: module `Formats`, the documented contract of the message formatter that `ToMultiLine` delegates to. Each message is followed by the delimiter, the last one included. A missing delimiter means a single space.
- `outcomes.dfy`: module `Outcomes`. It holds these parts:
  - the heap objects behind `Messages` (`MessageList`) and `Keys` (`KeyBag`);
  - the two interface views used as derivation sources (`BareOutcome` for `IOutcome`, `TypedOutcome` for `IOutcome<TValue>`);
  - the class `OutcomeResult`;
  - four client methods that exercise construction, typed derivation, late payload assignment and aliasing.

`default(TValue)` is a `defaultValue` parameter of the two constructors that use it. The metadata values, `object` in the source, are an opaque type parameter `V`.

## Model

| member | source | states |
|---|---|---|
| `Formats.Delimiter` | Outcomes/OutcomeResult.cs:69-75 | What follows each message: a single space when no delimiter or the empty one is given, otherwise the given delimiter. It is never empty. |
| `Formats.ToMultiLine` | Outcomes/OutcomeResult.cs:69-77 | The rendering is empty exactly when the message list is empty. Its length is the total length of the messages plus one delimiter per message. |
| `Formats.MultiLineAppend` | Outcomes/OutcomeResult.cs:69-74 | Rendering a concatenated list gives the concatenation of the two renderings. |
| `Formats.MultiLineSnoc` | Outcomes/OutcomeResult.cs:70-71 | Appending one message adds exactly that message and one delimiter to the end of the rendering. |
| `Formats.MultiLineIsJoinThenDelimiter` | Outcomes/OutcomeResult.cs:70-73 | For a non-empty list, the rendering equals the separator-join of the messages followed by one more delimiter. So the delimiter comes after every message, the last one included. |
| `Formats.EmptyDelimiterIsNoDelimiter` | Outcomes/OutcomeResult.cs:64-67 | Rendering with the empty string as delimiter is identical to rendering with no delimiter. |
| `Formats.RenderingExamples` | Outcomes/OutcomeResult.cs:69-74 | `["a","b"]` renders as `"a b "` with no delimiter and as `"a; b; "` with `"; "`. An empty list renders as `""`. |
| `Outcomes.MessageList.constructor` | Outcomes/OutcomeResult.cs:31 | A new message list is empty. |
| `Outcomes.MessageList.Add` | Outcomes/OutcomeResult.cs:22 | Appending puts the message at the end and keeps the earlier messages in order. |
| `Outcomes.KeyBag.constructor` | Outcomes/OutcomeResult.cs:34 | A new metadata bag is empty. |
| `Outcomes.KeyBag.Set` | Outcomes/OutcomeResult.cs:25 | Setting a key inserts it or overwrites its value, and leaves every other entry as it was. |
| `Outcomes.OutcomeResult.Failure` | Outcomes/OutcomeResult.cs:26 | Computed from the flag, never stored. `Failure() == !success` is stated after each constructor and kept by `SetValue`; `DeriveFromTyped` shows a derived outcome's `Failure` equals its source's. |
| `Outcomes.OutcomeResult.constructor` | Outcomes/OutcomeResult.cs:26-35 | A fresh outcome has `Success == s` and `Failure == !s`. Its message list and bag are newly allocated and empty. The payload is the default and the status code is absent. |
| `Outcomes.OutcomeResult.FromTyped` | Outcomes/OutcomeResult.cs:41-48 | Copies the flag, the payload and the status code, so `Failure` is the negated source flag. The message list and bag are the very same objects as the source's. |
| `Outcomes.OutcomeResult.FromUntyped` | Outcomes/OutcomeResult.cs:54-61 | Copies the flag and the status code, and shares the source's message list and bag objects. The payload is always the default, and no error is raised. |
| `Outcomes.DeriveFromTyped` | Outcomes/OutcomeResult.cs:41-48 | Deriving from an existing outcome through its `IOutcome<TValue>` view yields a distinct object. It agrees with the source on `Success`, `Failure`, `Value` and `StatusCode`, holds the same list and bag objects, and renders identically for every delimiter and in `ToString`. |
| `Outcomes.OutcomeResult.SetValue` | Outcomes/OutcomeResult.cs:21-25 | Assigning the payload changes only the payload. The flag, `Failure`, the list object and its contents, the status code and the bag contents stay the same. The bag reference is a constant fixed at construction. |
| `Outcomes.OutcomeResult.ToMultiLine` | Outcomes/OutcomeResult.cs:75-78 | The result is empty exactly when there are no messages. Otherwise it is the messages joined by the delimiter, plus one trailing delimiter. |
| `Outcomes.OutcomeResult.ToString` | Outcomes/OutcomeResult.cs:63-67 | The default string conversion equals `ToMultiLine` with no delimiter. So it is the messages joined by spaces, plus one trailing space. |
| `Outcomes.FreshOutcomeScenario` | Outcomes/OutcomeResult.cs:21-35 | Build a successful outcome, append message `m` and assign the payload. Then `Success`, `!Failure`, `Value == payload` and `Messages == [m]` all hold, and the rendering is `m + " "`. |
| `Outcomes.SharedStateScenario` | Outcomes/OutcomeResult.cs:41-48 | Derive an outcome from another. A message appended through the source is seen, and rendered, through the derived outcome. A key set through the derived outcome is seen in the source's bag. |
| `Outcomes.DerivedStatusAndKeysScenario` | Outcomes/OutcomeResult.cs:41-61 | Status code 404 and metadata `"trace" -> "abc"` survive derivation from both a typed and a bare source. The typed source keeps its payload, and the bare source yields the default. |

## Left out

- The implementation of `MultiLineFormatter` (Outcomes/OutcomeResult.cs:7,77) is not part of this model. Only its documented behaviour is stated (`Formats.ToMultiLine`): a delimiter after every message, and a single space when no delimiter is given (Outcomes/OutcomeResult.cs:70-71).
- Formats.Delimiter: treating the empty delimiter like a missing one is an assumption about the formatter, not something the source shows. The doc comment at Outcomes/OutcomeResult.cs:70-71 covers only the missing delimiter. If the formatter appended `""` as given, every message would be followed by nothing.
- Outcomes.OutcomeResult.ToString: passes the empty string (Outcomes/OutcomeResult.cs:66), and it is documented only as the concatenated message list (line 63), with no mention of spaces. Its postconditions `r == ToMultiLine(None)` and the trailing-space join rest on the assumption above. Under the other reading `["a","b"]` would give `"ab"`, and the `m + " "` renderings in `FreshOutcomeScenario` and `SharedStateScenario` would be just `m`.
- The interfaces `IOutcome` and `IOutcome<TValue>`, the `Outcomes.Success()` / `Outcomes.Failure()` factories and the pipeline are not part of this model. The interfaces appear only as the datatypes `BareOutcome` and `TypedOutcome`, the inputs of the deriving constructors.
- The `[Serializable]` attribute for .NET 4.0/4.5 is platform plumbing and has no behaviour to model.
- Metadata values are an opaque type parameter instead of `object`. Down-casting on read is the caller's concern.
- The status code is an unbounded `int` rather than a 32-bit `int?`. No operation does arithmetic on it, so the width never matters.
- `Success`, `Messages` and `StatusCode` have protected setters that a subclass could use. No code in the core calls them after construction, so no method of the model reassigns those fields.
- `List<string>` and `Dictionary<string, object>` are modelled only by the operations the outcome's contract needs: creation empty, appending a message, and setting a key. Removal, clearing and `Dictionary.Add`'s duplicate-key exception are left out.
- `Failure` carries no contract of its own, because any contract would only restate `!Success`. Its property is stated in each constructor's and `SetValue`'s postconditions.
- Thread safety of the shared list and bag is left out. There is no concurrency logic in the core.
