# AI personality engine: profile extraction and persona prompts

This project models the two deterministic pieces of a chat "personality
engine":

- **Profile extraction** (`MemoryModule.extract_memory`). A language model is asked
  for a JSON profile of a chat log. The reply, after `json.loads`, is unwrapped if
  it is a list. Each missing field among `facts`, `preferences` and
  `emotional_patterns` is given `[]`. The result is then validated as a
  `UserProfile`, a record of three required string lists. An exception on the
  way yields the all-empty profile, with the error and the raw reply shown to the
  user. The one exception is a reply whose text cannot be read: the handler reads
  it again to show it, and the second read raises out of `extract_memory` (see
  "## Findings").
- **Persona prompt composition** (`PersonalityEngine.construct_system_prompt`). A
  persona name is looked up in a fixed catalog of four instruction texts, with
  "Witty Friend" as the fallback. The result is the instruction, a blank line, and
  a dossier block that lists the profile's facts, emotional patterns and
  preferences, each joined with `", "`.

Modules:

- `Wrappers` (`wrappers.dfy`): `Option` and `Result`.
- `JsonValues` (`json_values.dfy`): the parsed JSON value.
- `Models` (`models.dfy`): `UserProfile`, `ChatMessage`, and the validation
  `UserProfile(**kwargs)` performs.
- `Memory` (`memory.dfy`): extraction. `TryExtract` is the imperative model of the
  try block. It reassigns a local `rawData` step by step and returns early on each exception. It
  also follows Python's semantics for `in`, item assignment and `**` when the reply
  is not a dict: a string is searched for a substring, a list for an element, and
  anything else raises `TypeError`. `Extract` is the declarative specification.
  The method's postcondition equates the two, so every non-object reply is proved
  to reach the fallback, whichever Python error it actually raises.
  `ExtractMemoryAsWritten` adds the source's exception handler, which can itself
  raise; `ExtractMemory` is the corrected handler, which always falls back.
- `Persona` (`persona.dfy`): the catalog, `Join`, the dossier template, and
  `PersonalityEngine` as a datatype whose `memory` field is set once and only read.
  `ReadPrompt` is a read-back function, the inverse of composition. It recovers the
  instruction and the three lists from a composed prompt, which shows that
  composition loses nothing for plain items.

Some properties hold by construction and need no lemma. The three profile fields
are always sequences because of their types. `construct_system_prompt` is
deterministic and never modifies the stored profile, because Dafny functions and
datatype values cannot change state. `ChatMessage` is the two-string record
`ChatMessage(role, content)`; the core has no operation on it.

The service call and `json.loads` are inputs. Both extraction methods take a
`ServiceReply`, which is one of three cases:

- `CallFailed`: `generate_content` raised, so no response exists.
- `TextUnreadable`: a response exists, but reading its text raises.
- `Text(text, parsed)`: the reply text, and the outcome of `json.loads` on it.

## Model

| member | source | states |
|---|---|---|
| `Models.EmptyProfile` | memory.py:54 | the fallback profile `UserProfile(preferences=[], emotional_patterns=[], facts=[])` with all three lists empty (used by the ensures of `ExtractMemory`, `ExtractMemoryAsWritten`, `EmptyListGivesEmptyProfile` and `EmptyProfilePrompt`) |
| `Models.StringItems` | models.py:5-13 | a JSON array validates as `List[str]` exactly when every item is a string; the strings are then the items in order, and a failure names the first non-string item |
| `Models.ValidateField` | models.py:5-13 | one required `List[str]` field succeeds exactly when it is present and holds an array of strings, and then yields those strings; a failure names the field (properties: `ValidateFieldIff`, `MissingFieldFails`, `NonListFieldFails`, `NonStringItemFails`) |
| `Models.Validate` | models.py:4-13 | `UserProfile(**kwargs)`: a success holds the three fields' lists; a failure names a profile field that does not validate (properties: `ValidateIff`, `ValidateAsKwargs`) |
| `Models.ValidateFieldIff` | models.py:5-13 | a required field validates to a list `xs` if and only if it is present and holds exactly the array of `xs` |
| `Models.ValidateIff` | models.py:4-13 | `UserProfile(**kwargs)` yields `p` if and only if the three fields hold `p`'s three lists; other keys play no part |
| `Models.ValidateAsKwargs` | models.py:4-13 | encoding a profile as keyword arguments and validating them gives the profile back |
| `Models.MissingFieldFails` | models.py:5-12 | none of the three fields has a default: a missing field is a validation failure |
| `Models.NonListFieldFails` | models.py:5-11 | a field holding a value that is not a list fails validation |
| `Models.NonStringItemFails` | models.py:5-11 | a list with any item that is not a string fails validation |
| `Memory.EmptyProfileObject` | memory.py:42 | the object `{"preferences": [], "emotional_patterns": [], "facts": []}` that replaces an empty list (property: `EmptyListGivesEmptyProfile`) |
| `Memory.Unwrap` | memory.py:37-42 | one level of list unwrapping: a non-empty list gives its first element, an empty list the empty profile object, any other value itself (properties: `NonEmptyListTakesFirst`, `NestedListFails`, `EmptyListGivesEmptyProfile`) |
| `Memory.IsSubstring` | memory.py:45-47 | Python's `key in s` on a string: `key` occurs in `s` as a contiguous substring; `Contains` uses it when the reply is a string |
| `Memory.WithDefaults` | memory.py:45-47 | after defaulting, the keys are exactly the original keys plus the three profile fields |
| `Memory.WithDefaultsEntries` | memory.py:45-47 | an absent profile field is inserted as `[]`, keys already present keep their values, and no other key appears |
| `Memory.Contains` | memory.py:45-47 | Python's `in`: on a dict it tests the keys; it raises `TypeError` exactly for values that are neither dict, string nor list |
| `Memory.SetItem` | memory.py:45-47 | item assignment succeeds exactly on a dict and then sets that one key |
| `Memory.SetDefault` | memory.py:45-47 | on a dict, the key is inserted as `[]` only when absent; on any other value the step either raises `TypeError` or leaves the value unchanged |
| `Memory.Extract` | memory.py:32-49 | the declarative try block after the call: a success comes from an object after unwrapping whose defaulted fields hold the profile's lists; the only exceptions are a parse error, `TypeError` and a validation error (properties: `ObjectExtractsIff`, `NonObjectFallsBack`, `ParseFailureFallsBack`, `BadFieldFallsBack`, `WellFormedReplyRoundTrip`, `ExtraKeyIgnored`) |
| `Memory.TryBlock` | memory.py:26-49 | the whole try block from the service reply: a failed call, an unreadable text, or `Extract` on the parse outcome (used by the ensures of `ExtractMemoryAsWritten` and `ExtractMemory`) |
| `Memory.TryExtract` | memory.py:32-49 | the step-by-step try block (unwrap, the three guarded inserts in source order, `**` on a non-mapping, validation) yields exactly the profile or the exception `Extract` gives |
| `Memory.ExtractMemoryAsWritten` | memory.py:26-54 | as the source is written: a successful try block returns its profile; a failure returns the all-empty profile with the error and the raw output, except when the reply's text was unreadable, where the exception escapes |
| `Memory.ExtractMemory` | memory.py:26-54 | with a handler that cannot raise: every reply returns either the try block's profile with no error, or the all-empty profile with the exception and the raw output shown |
| `Memory.RawOutputAsWritten` | memory.py:53 | the raw output as the handler computes it: "None" without a response, otherwise a fresh read of the text, which fails again when the text was unreadable (properties: `RawOutputAsWrittenFailsIff`, `UnreadableTextEscapes`; the as-written half of "## Findings") |
| `Memory.RawOutput` | memory.py:53 | the raw output a non-raising handler shows agrees with what the source shows wherever the source's read succeeds |
| `Memory.RawOutputAsWrittenFailsIff` | memory.py:53 | the source's handler fails to compute the raw output exactly when the reply's text was unreadable |
| `Memory.UnreadableTextEscapes` | memory.py:32-53 | a concrete reply with unreadable text fails in the try block and then fails again in the handler |
| `Memory.NonEmptyListTakesFirst` | memory.py:37-39 | a non-empty top-level list extracts as its first element alone; the remaining elements are ignored |
| `Memory.NestedListFails` | memory.py:37-49 | only one level of list is unwrapped: a list whose first element is a list ends in `TypeError` |
| `Memory.EmptyListGivesEmptyProfile` | memory.py:40-42 | an empty top-level list yields the all-empty profile with no error |
| `Memory.ObjectExtractsIff` | memory.py:45-49 | an object extracts to `p` if and only if each of the three fields is absent (and `p`'s list is empty) or holds exactly `p`'s list |
| `Memory.NonObjectFallsBack` | memory.py:37-54 | every reply that is not an object after unwrapping (null, bool, number, string, nested list) ends in `TypeError` and the all-empty profile |
| `Memory.ParseFailureFallsBack` | memory.py:32-54 | a JSON parse failure yields the all-empty profile and reports the failure |
| `Memory.BadFieldFallsBack` | memory.py:49-54 | a present field that is not a list of strings makes extraction fail and return the all-empty profile |
| `Memory.WellFormedReplyRoundTrip` | memory.py:37-49 | the reply the prompt asks for, one object with the three lists, extracts to exactly that profile, alone or as the first element of a list |
| `Memory.NumberItemFails` | memory.py:45-49 | the object whose only key is `facts`, holding `[n]`, fails validation at item 0 of `facts`, whatever `n` is; the general case of a bad item is `BadFieldFallsBack` |
| `Memory.ExtraKeyIgnored` | memory.py:45-49 | for every object, adding or replacing a key outside the three fields, whatever it holds, leaves the extraction outcome unchanged, profile or error |
| `Persona.Personas` | persona.py:6-44 | the catalog of four persona names and their instruction texts (property: `CatalogHasFourPersonas`) |
| `Persona.BaseInstruction` | persona.py:51 | the selected instruction is always one of the catalog's texts |
| `Persona.CatalogHasFourPersonas` | persona.py:6-44 | the catalog holds exactly "Witty Friend", "Calm Mentor", "Empathetic Therapist" and "Indian Mom" |
| `Persona.KnownPersonaSelectsOwnText` | persona.py:51 | a name in the catalog selects its own instruction |
| `Persona.UnknownPersonaFallsBack` | persona.py:51 | a name not in the catalog selects the Witty Friend instruction and does not fail |
| `Persona.Join` | persona.py:58-60 | Python's `sep.join(parts)`: the parts in order with one separator between neighbours (properties: `JoinEmpty`, `JoinSingleton`, `JoinConcat`, `JoinAvoids`, `SplitJoin`) |
| `Persona.RenderList` | persona.py:58-60 | one dossier list line: the profile list joined with `", "` (properties: `ReadRenderedList`, `EmptyAndBlankRenderAlike`) |
| `Persona.JoinEmpty` | persona.py:58-60 | an empty list renders as the empty string |
| `Persona.JoinSingleton` | persona.py:58-60 | a one-element list renders as that element, with no separator |
| `Persona.JoinConcat` | persona.py:58-60 | joining two non-empty lists equals joining each, with one separator between them |
| `Persona.JoinAvoids` | persona.py:58-60 | a character found in no element and not in the separator does not occur in the joined string |
| `Persona.EmptyAndBlankRenderAlike` | persona.py:58-60 | the empty list and the list holding one empty string render identically |
| `Persona.SplitJoin` | persona.py:58-60 | splitting a joined non-empty list of comma-free items at `", "` gives the items back |
| `Persona.ReadRenderedList` | persona.py:58-60 | a rendered list of plain items reads back as the same list |
| `Persona.Dossier` | persona.py:54-64 | the dossier text around its three list lines, down to the whitespace (property: `DossierIsReadable`) |
| `Persona.Fill` | persona.py:54-64 | the dossier with the facts, emotional patterns and preferences lines filled in, in that order (property: `ReadFilledPrompt`) |
| `Persona.ContextBlock` | persona.py:54-64 | the dossier filled with the profile's three lists, each rendered with `", "` (properties: `ReadComposedPrompt`, `EmptyProfilePrompt`) |
| `Persona.DossierIsReadable` | persona.py:54-64 | the dossier's three labels hold no line break, and the text before them ends with one |
| `Persona.ReadFilledPrompt` | persona.py:54-66 | for any readable template, reading back the instruction, a blank line and the filled template recovers the instruction and the three lines |
| `Persona.PersonalityEngine.ConstructSystemPrompt` | persona.py:49-66 | the prompt starts with the selected instruction followed by two newlines |
| `Persona.ReadComposedPrompt` | persona.py:49-66 | for plain items, the prompt reads back as the selected instruction, then facts, emotional patterns and preferences, in that order |
| `Persona.PromptDeterminesInputs` | persona.py:46-66 | two prompts over profiles of plain items are equal only if they select the same instruction and the profiles are equal |
| `Persona.EmptyProfilePrompt` | persona.py:54-66 | the empty profile composes without error into the instruction, a blank line and a dossier whose three lists are empty |

## Left out

- The language-model client (memory.py:7-12, 28-30) is not modelled. It is an external service: its outcome is the `ServiceReply` input. That input separates a failed call from a response whose text accessor raises.
- `json.loads` is not modelled; its outcome is an input. JSON numbers are integers in the model. No step looks at a number's value: a number is neither a dict, a list nor a string. So a number at the top level raises `TypeError`, a number inside a field list fails validation, and a number under an extra key is ignored.
- `st.error`, `st.warning` and `print` (memory.py:27, 52-53) are user-interface side effects. They are replaced by the returned `error` and `rawShown` values; the message wording is not modelled.
- The wording of the extraction prompt (memory.py:16-24) is not modelled. It is data sent to the external service.
- Pydantic internals are assumed, not modelled. Extra keys are ignored, which is pydantic's default. A list item must be a string, with no coercion of numbers to strings, which is pydantic v2's lax mode. Pydantic reports every failing field; the model reports the first one in declaration order. Only the fact of failure affects the returned profile.
- app.py is not part of this model: the UI, session state, API-key lookup and the concatenation of the user's message to the prompt.
- What a profile extracted from a given transcript contains depends on the language model's answer, so it is not modelled.
- Persona.ReadComposedPrompt: holds only when every item is non-empty and contains no comma or line break. For other items the rendering is ambiguous (see `EmptyAndBlankRenderAlike`), so no read-back can exist.

## Findings

| source | as written | input that shows it | evidently intended | confidence | as-written member | corrected member |
|---|---|---|---|---|---|---|
| memory.py:53 | the exception handler reads `response.text` again whenever `response` is bound, including when reading `response.text` at memory.py:32 was what raised | a response whose text accessor raises (`TextUnreadable`): the handler's second read raises, and the exception leaves `extract_memory`, reaching a caller without a `try` | every failure after the call yields the all-empty profile, with the raw output shown as unavailable | medium, not executed | `Memory.ExtractMemoryAsWritten`, `Memory.UnreadableTextEscapes` | `Memory.ExtractMemory` |
