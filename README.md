# PromptFactory prompt engine — a Dafny model

PromptFactory turns a short user-intent record (what to build, the user's experience
level, whether the AI or the user picks the technology stack) into an ordered list of
natural-language prompts, one per stage of a template document. This project models the
engine that does it, `prompt-factory-mvp/server/services/promptEngine.js`, and proves
properties of it:

- `Interpolation` models `interpolate`: one left-to-right pass of the regular expression
  `/\{\{(\w+)\}\}/g`. Each token `{{name}}` (the name is one or more of `[A-Za-z0-9_]`) is
  replaced by `data[name]`. A name with no value keeps its token literally. Replacement
  text is never scanned again. A missing or empty text gives `""`.
- `PromptEngine` models `generatePrompts`, in this order:
  - it rejects a missing record, or one without an application type or an experience level;
  - it looks up the experience modifier and chooses the technology instruction;
  - it joins base, modifier, instruction and constraints modifier with single spaces, then
    interpolates that context with `application_type` only;
  - it renders every step spec in template order: the wrapper lines joined by newlines,
    interpolated against the step's role, context, objective and three bullet blocks.
- `Text` models JavaScript's `Array.prototype.join`; `Wrappers` holds `Option` and `Result`.

The template document is a parameter (`PromptEngine.Template`) rather than the file the
module reads once at load time. A thrown `Error("Invalid user input")` is a
`Failure("Invalid user input")`. A JavaScript `null`/`undefined` field is `None`. The data
mapping is a `map<string, string>`.

Two behaviours of the code are easy to miss:
- It never checks `selected_stack`. A record that chose its own stack but named none is
  accepted, and "As defined in architecture" is written in its place
  (`PromptEngine.UnvalidatedStack`).
- It compares the technology preference with `"let_ai_decide"` only. Any other value, a
  missing one included, takes the user-selected form (`PromptEngine.TechnologyBranches`).

The steps are rendered in array order. The code does not sort them by `step`, and neither
does the model.

## Model

| member | source | states |
|---|---|---|
| `Interpolation.WordRun` | prompt-factory-mvp/server/services/promptEngine.js:18 | the greedy `\w+` run: every character before the result is a word character and the one at the result (if any) is not |
| `Interpolation.TokenAt` | prompt-factory-mvp/server/services/promptEngine.js:18 | a token found at the start of a text is `{{` + a non-empty `\w+` name + `}}`, and the text really begins with it |
| `Interpolation.TokenAtComplete` | prompt-factory-mvp/server/services/promptEngine.js:18 | conversely, every text beginning with `{{k}}` for a `\w+` name `k` has a token with name `k` there |
| `Interpolation.Interpolate` | prompt-factory-mvp/server/services/promptEngine.js:16-21 | a missing or empty text gives `""` whatever the data; any other text is the single-pass substitution |
| `Interpolation.LiteralPrefix` | prompt-factory-mvp/server/services/promptEngine.js:18-20 | text without `{` cannot start a token and is copied unchanged ahead of the substituted rest |
| `Interpolation.TokenPrefix` | prompt-factory-mvp/server/services/promptEngine.js:18-20 | a leading token becomes `data[k]` when `k` has a value and stays `{{k}}` when it has none; scanning resumes right after the token |
| `Interpolation.Lookup` | prompt-factory-mvp/server/services/promptEngine.js:19 | the replacement for a token `{{k}}`: `data[k]` when `k` has a value (even `""`), else the token itself; described by `TokenPrefix` and `TokenAnywhere` |
| `Interpolation.Substitute` | prompt-factory-mvp/server/services/promptEngine.js:18-20 | the global replace as one left-to-right scan; what it computes is stated by `LiteralPrefix`, `TokenPrefix`, `TokenAnywhere`, `TokenFreeUnchanged`, `EmptyDataIdentity` and `MalformedTokenUnchanged` |
| `Interpolation.TokenAtBeforeBraces` | prompt-factory-mvp/server/services/promptEngine.js:18 | no match runs from a non-empty text into a following `{`, so the token found at the front (or its absence) does not depend on what follows |
| `Interpolation.SplitBeforeBraces` | prompt-factory-mvp/server/services/promptEngine.js:18-20 | the pass can be cut just before any `{`: the result is the substitution of the text before it followed by that of the text from it on |
| `Interpolation.TokenAnywhere` | prompt-factory-mvp/server/services/promptEngine.js:18-20 | a well-formed token anywhere in the text, whatever precedes it, becomes `data[k]`, or stays `{{k}}` when `k` has no value; the text on either side is substituted independently |
| `Interpolation.TokenFreeUnchanged` | prompt-factory-mvp/server/services/promptEngine.js:18 | a text in which no position starts a token is returned unchanged |
| `Interpolation.EmptyDataIdentity` | prompt-factory-mvp/server/services/promptEngine.js:19 | with an empty mapping every token is unresolved, so every text comes back exactly as it was |
| `Interpolation.MalformedTokenUnchanged` | prompt-factory-mvp/server/services/promptEngine.js:18 | only `\w+` names are recognised: `{{}}`, `{{a-b}}` and similar brace-free non-names stay literally, whatever the data |
| `Interpolation.Segment` | prompt-factory-mvp/server/services/promptEngine.js:18-20 | brace-free text followed by a token whose name has a value becomes the text followed by that value, then the substituted rest |
| `Interpolation.TwoSegments` | prompt-factory-mvp/server/services/promptEngine.js:18-20 | two such text-and-token segments in a row are both filled in, in order |
| `Interpolation.ValueNotRescanned` | prompt-factory-mvp/server/services/promptEngine.js:18-20 | replacement text is not rescanned: `{{a}}` with `a = "{{b}}"` and `b = "x"` gives `{{b}}`, not `x` |
| `Interpolation.KnownThenMissing` | prompt-factory-mvp/server/services/promptEngine.js:18-20 | for any brace-free surrounding text, a key with a value is filled in and a different key without one survives as `{{m}}` |
| `Interpolation.KnownAndMissingExample` | prompt-factory-mvp/server/services/promptEngine.js:16-21 | `"Building a {{application_type}} for {{missing_key}}"` with `{application_type: "website"}` gives `"Building a website for {{missing_key}}"` |
| `Text.Join` | prompt-factory-mvp/server/services/promptEngine.js:53-58 | `Array.prototype.join`: the entries in order with the separator between neighbours, `""` for none; stated by `JoinFour`, `JoinConcat` and `JoinFourLines` |
| `Text.JoinFour` | prompt-factory-mvp/server/services/promptEngine.js:53-58 | joining four entries puts the separator between neighbours and nowhere else |
| `Text.JoinConcat` | prompt-factory-mvp/server/services/promptEngine.js:64-66 | joining two non-empty lists one after the other is the two joins with one separator between them, so order is preserved |
| `Text.JoinFourLines` | prompt-factory-mvp/server/services/promptEngine.js:77 | four wrapper lines joined with `"\n"` are the lines in order with a newline between neighbours |
| `PromptEngine.Present` | prompt-factory-mvp/server/services/promptEngine.js:24 | JavaScript truthiness of an optional string: present and non-empty |
| `PromptEngine.Accepted` | prompt-factory-mvp/server/services/promptEngine.js:24 | the input guard: a record with a truthy application type and experience level; `GeneratePrompts` fails exactly when it does not hold |
| `PromptEngine.ExperienceModifier` | prompt-factory-mvp/server/services/promptEngine.js:39-40 | the template's modifier for the level, `""` for an unknown level; see `UnknownLevelTolerated` |
| `PromptEngine.StackName` | prompt-factory-mvp/server/services/promptEngine.js:48 | the selected stack when truthy, else "As defined in architecture"; see `TechnologyBranches` and `UnvalidatedStack` |
| `PromptEngine.TechInstruction` | prompt-factory-mvp/server/services/promptEngine.js:43-50 | the technology instruction; its two branches are stated by `TechnologyBranches` |
| `PromptEngine.ConstraintsText` | prompt-factory-mvp/server/services/promptEngine.js:57 | the template's constraints modifier, `""` when missing; see `ContextLayout` |
| `PromptEngine.RawContext` | prompt-factory-mvp/server/services/promptEngine.js:53-58 | the four context fragments joined with spaces; see `ContextLayout` |
| `PromptEngine.Context` | prompt-factory-mvp/server/services/promptEngine.js:60 | the raw context interpolated with `application_type` only; see `ContextKeepsOtherTokens` |
| `PromptEngine.Dashed` | prompt-factory-mvp/server/services/promptEngine.js:64 | each entry prefixed with `"- "`; see `DashedConcat` |
| `PromptEngine.Bullets` | prompt-factory-mvp/server/services/promptEngine.js:64-66 | the dashed entries joined by newlines; see `BulletsShape` |
| `PromptEngine.StepData` | prompt-factory-mvp/server/services/promptEngine.js:68-75 | the six-key mapping of one step; see `StepDataFields` and `StepKeysAreNames` |
| `PromptEngine.Content` | prompt-factory-mvp/server/services/promptEngine.js:77-83 | the wrapper lines joined by newlines and interpolated with the step mapping; see `FieldVerbatim`, `FourLineWrapper` |
| `PromptEngine.Render` | prompt-factory-mvp/server/services/promptEngine.js:79-84 | one prompt: the step's number, stage and role with the rendered content; see `RenderAll` and `GeneratePrompts` |
| `PromptEngine.GeneratePrompts` | prompt-factory-mvp/server/services/promptEngine.js:23-86 | fails with "Invalid user input" exactly when the record is missing or lacks an application type or experience level; otherwise one prompt per step spec, same count and order, each with the spec's step number, stage and role, and a body rendered against the one shared context |
| `PromptEngine.RenderAll` | prompt-factory-mvp/server/services/promptEngine.js:63-85 | the step mapping keeps length and order: the i-th prompt is the rendering of the i-th step spec |
| `PromptEngine.ContextLayout` | prompt-factory-mvp/server/services/promptEngine.js:53-58 | the raw context is base, modifier, technology instruction and constraints modifier, in that order, with one space after each of the first three |
| `PromptEngine.UnknownLevelTolerated` | prompt-factory-mvp/server/services/promptEngine.js:39-40 | an experience level missing from the modifier map does not cause failure; its empty segment leaves two adjacent spaces after the base |
| `PromptEngine.TechnologyBranches` | prompt-factory-mvp/server/services/promptEngine.js:43-50 | the instruction is the AI-decides rule verbatim for exactly `"let_ai_decide"`; otherwise `"User selected tech: "` + the stack (or `"As defined in architecture"`) + `". "` + the user-selects rule |
| `PromptEngine.UnvalidatedStack` | prompt-factory-mvp/server/services/promptEngine.js:24-26 | a record that chose `"user_selected"` but named no stack is still accepted and gets the fallback phrase |
| `PromptEngine.DashedConcat` | prompt-factory-mvp/server/services/promptEngine.js:64 | prefixing each entry with `"- "` commutes with concatenating lists |
| `PromptEngine.BulletsShape` | prompt-factory-mvp/server/services/promptEngine.js:64-66 | a bullet block is `""` for no entries and `"- x"` for one; the block of two consecutive parts is their blocks joined by a newline |
| `PromptEngine.StepDataFields` | prompt-factory-mvp/server/services/promptEngine.js:68-75 | the per-step mapping gives `role`, `context`, `objective`, `instructions`, `constraints` and `output_format` their texts |
| `PromptEngine.StepKeysAreNames` | prompt-factory-mvp/server/services/promptEngine.js:68-75 | every key of the per-step mapping is a name a token can carry |
| `PromptEngine.FieldVerbatim` | prompt-factory-mvp/server/services/promptEngine.js:77-83 | a field is inserted verbatim at its token wherever that token stands in the wrapper, with the text before and after it substituted on their own; so the context string's unresolved tokens reach the prompt body unchanged |
| `PromptEngine.FourLines` | prompt-factory-mvp/server/services/promptEngine.js:77-83 | four labelled wrapper lines ending in `{{role}}`, `{{context}}`, `{{objective}}`, `{{instructions}}` render line for line against any mapping holding those keys |
| `PromptEngine.FourLineWrapper` | prompt-factory-mvp/server/services/promptEngine.js:77-83 | with that wrapper, a step's body is its labelled role, context, objective and instruction bullets, in order |
| `PromptEngine.SingleStepScenario` | prompt-factory-mvp/server/services/promptEngine.js:23-86 | one step spec and the four-line wrapper give exactly one prompt, with the spec's step, stage and role and the four rendered lines |
| `PromptEngine.ContextKeepsOtherTokens` | prompt-factory-mvp/server/services/promptEngine.js:60 | the context is interpolated with `application_type` only: a base opening with any other token keeps it literally at the front of the context |

## Left out

- Template loading at module load (`promptEngine.js:4-14`) is not modelled. That code reads a file, runs `JSON.parse`, logs, and calls `process.exit`. The template is a parameter instead, and every field the engine reads is present with the type it expects.
- The HTTP layer is not part of this model: `server/index.js`, `server/routes/promptRoutes.js`, their CORS, rate limiting, logging and status mapping. The same goes for the React form `client/components/GeneratorForm.jsx` and `client/next.config.ts`.
- JavaScript property lookup quirks are not modelled. Examples are prototype keys such as `constructor` in `data[key]` or in the modifier map. Non-string values and their coercion to text are left out too. Every value is a string.
- The experience-modifier lookup uses `|| ""`, which also maps a stored `""` to `""`. The model keeps the stored value, and since that value is `""` the result is the same.
- A missing `experience_modifier` object is modelled as an empty map. The `?.` access in the source gives the same result.
- Regular-expression `\w` is ASCII only. Characters are Dafny `char`s, and no Unicode case or class rules apply.
- Calling the generator twice on the same input gives the same output. This needs no lemma: every operation here is a mathematical function.
- Interpolation is a single pass, so a replacement value that itself contains `{{name}}` is never filled in. The model keeps this behaviour (`ValueNotRescanned`) and makes no attempt at a fixed point.
