# Model and provider routing for a multi-provider chat assistant

This project models the routing layer that sits in front of an LLM streaming engine. It covers two parts.

- **Request normalisation** (`StreamText`, from `app/lib/.server/llm/stream-text.ts`):
  - A user message can carry an inline model directive and an inline provider directive. They are read from the message text and then stripped from every text segment.
  - One pass over the conversation keeps a running model and a running provider. The model changes only when a user message names a model in the registry list; the last such message wins. The provider is overwritten by every user message, and is never checked against a registry.
  - The token ceiling comes from the first registry record named like the resolved model, when that record's ceiling is truthy. Otherwise the global default ceiling is used.
  - Multi-part content is flattened into the parts' texts joined by single spaces.
  - The pass is an imperative loop (`NormalizeMessages`), proved against the fold `Resolve`. The lemmas give the fold's meaning: "last listing user message wins", "last user message wins", "the provider ignores the registry".
- **The prompt-enhancer endpoint** (`Enhancer`, from `app/routes/api.enhancer.ts`):
  - It checks `model` first and `provider.name` second. Each failure is a 400.
  - It then builds one user message that starts with the directive header `[Model: m]\n\n[Provider: p]\n\n` and passes it to `streamText` with no options and the caller's API keys.
  - A dispatch failure becomes a 401 when it is an `Error` whose message contains `API key`. Every other failure becomes a bare 500. A success is a 200 with three fixed headers.

`JsCore` states once the JavaScript built-ins both parts use: `find`, `join`, `includes`, and a value that may be `undefined`.

The two directive patterns (`MODEL_REGEX`, `PROVIDER_REGEX`) are defined in a file that is not part of this model. Each pattern is therefore a pair of abstract functions in `Config`:
- `find`: `match(pattern)`, reduced to its element `[1]` (`None` when there is no match); what that element is, is left to the abstraction;
- `erase`: `replace(pattern, '')`.

The default model, the default provider name, the default ceiling (`MAX_TOKENS`), the system prompt and the registry list are all inputs. Where a lemma needs to know more about the patterns, it says so in its `requires`: erasing leaves unmatched text alone, erasing removes the match, and stripping the provider directive does not create a model directive.

Two behaviours of the code are easy to miss:
- Directives are stripped from every text part, not only from the first one they are read from.
- When content is flattened, every part contributes `text || ''`, whatever its type. A non-text part that has a `text` property contributes that text, not an empty string.

## Model

| member | source | states |
|---|---|---|
| `JsCore.FindFirst` | app/lib/.server/llm/stream-text.ts:31 | `find`: the index found satisfies the predicate and no earlier element does; no index means no element satisfies it |
| `JsCore.JoinLength` | app/lib/.server/llm/stream-text.ts:90 | a join of n ≥ 1 pieces is as long as the pieces plus n − 1 separators; a join of no pieces is empty |
| `JsCore.JoinPiece` | app/lib/.server/llm/stream-text.ts:90 | piece k of a join sits at its offset |
| `JsCore.JoinSeparator` | app/lib/.server/llm/stream-text.ts:90 | exactly one separator follows every piece but the last, and the next piece starts right after it |
| `JsCore.Join` | app/lib/.server/llm/stream-text.ts:90 | `join(sep)`: a join of at least one piece starts with the first piece; `JoinLength`, `JoinPiece` and `JoinSeparator` fix the rest of the string |
| `JsCore.Includes` | app/routes/api.enhancer.ts:101 | `includes`: only a substring no longer than the string can be found, and the empty one always is; `IncludesIff` gives its meaning |
| `JsCore.IncludesIff` | app/routes/api.enhancer.ts:101 | `includes` holds exactly when the substring occurs at some index |
| `StreamText.DirectiveText` | app/lib/.server/llm/stream-text.ts:30-32 | a string content is read whole; an array is read from its first `text` part (`''` if that part has no text), or `''` if it has none |
| `StreamText.DirectiveIgnoresLaterParts` | app/lib/.server/llm/stream-text.ts:30-32 | replacing all parts after the first text part leaves the directive text unchanged |
| `StreamText.ParsedModel` | app/lib/.server/llm/stream-text.ts:34-37 | the model is the model pattern's capture, or `DEFAULT_MODEL` when it does not match |
| `StreamText.ParsedProvider` | app/lib/.server/llm/stream-text.ts:35-38 | the provider is the provider pattern's capture, or `DEFAULT_PROVIDER.name` when it does not match |
| `StreamText.CleanText` | app/lib/.server/llm/stream-text.ts:45-52 | `.replace(MODEL_REGEX, '').replace(PROVIDER_REGEX, '')`: text that carries neither directive is left unchanged, when erasure keeps unmatched text |
| `StreamText.CleanPart` | app/lib/.server/llm/stream-text.ts:41-49 | a non-text part is unchanged; a text part keeps its type and whether it has a text, and its text is stripped |
| `StreamText.CleanContent` | app/lib/.server/llm/stream-text.ts:40-53 | a string is stripped of the model, then the provider directive; an array keeps its length and order, non-text parts are unchanged, and every text part is stripped (a missing text stays missing) |
| `StreamText.ExtractProperties` | app/lib/.server/llm/stream-text.ts:25-56 | returns the parsed model, the parsed provider and the cleaned content |
| `StreamText.NoDirectiveMeansDefaults` | app/lib/.server/llm/stream-text.ts:34-53 | a message without directives parses to the two defaults and its content is unchanged |
| `StreamText.CleanTextHasNoDirective` | app/lib/.server/llm/stream-text.ts:52 | for patterns whose erasure removes every match and whose provider erasure creates no model directive (see Left out), stripped text matches neither pattern |
| `StreamText.ExtractTwiceIsExtractOnce` | app/lib/.server/llm/stream-text.ts:25-56 | for patterns whose erasure removes every match and whose provider erasure creates no model directive (see Left out), re-extracting from cleaned content gives the defaults and the same content |
| `StreamText.RepeatedDirectiveSurvivesCleaning` | app/lib/.server/llm/stream-text.ts:34-52 | for a pattern that `replace` strips only once, a text carrying the directive twice still carries it after one cleaning, and extracting again finds it rather than the default |
| `StreamText.IsListed` | app/lib/.server/llm/stream-text.ts:71 | the registry lookup succeeds exactly when some record has that name |
| `StreamText.ProcessMessage` | app/lib/.server/llm/stream-text.ts:67-81 | role, tool invocations and model tag are kept; a non-user message is unchanged; a user message gets its cleaned content |
| `StreamText.Step` | app/lib/.server/llm/stream-text.ts:68-75 | one callback turn: a non-user message changes nothing; a user message sets the provider to its parsed provider, and sets the model to its parsed model exactly when that model is listed, otherwise keeping it |
| `StreamText.Resolve` | app/lib/.server/llm/stream-text.ts:64-81 | the running model is always the default or a listed model |
| `StreamText.ResolvedModelIsLastListed` | app/lib/.server/llm/stream-text.ts:64-73 | the final model is the parsed model of the last user message whose parsed model is listed, or the default if there is none |
| `StreamText.ResolvedProviderIsLastUser` | app/lib/.server/llm/stream-text.ts:65-75 | the final provider is the parsed provider of the last user message, or the default if there are no user messages |
| `StreamText.ProviderIgnoresRegistry` | app/lib/.server/llm/stream-text.ts:71-75 | the final provider is the same whatever the registry list |
| `StreamText.DirectivelessLastUserResets` | app/lib/.server/llm/stream-text.ts:64-75 | a last user message without directives resets the provider to the default, and the model too when the default model is listed |
| `StreamText.NormalizeMessages` | app/lib/.server/llm/stream-text.ts:64-81 | the loop ends with the fold's model and provider, and a list of the same length whose k-th element is the k-th message processed |
| `StreamText.TokenCeiling` | app/lib/.server/llm/stream-text.ts:83-85 | the first record with the name gives the ceiling when its `maxTokenAllowed` is present and nonzero; otherwise, or with no such record, `MAX_TOKENS`; the result is the default or some same-named record's ceiling |
| `StreamText.ZeroCeilingFallsBack` | app/lib/.server/llm/stream-text.ts:83-85 | a first record named like the model whose ceiling is 0 or absent gives `MAX_TOKENS`, whatever its provider and whatever later records say |
| `StreamText.PartTexts` | app/lib/.server/llm/stream-text.ts:90 | each part contributes its `text`, or `''` when it has none, in order |
| `StreamText.Flatten` | app/lib/.server/llm/stream-text.ts:88-91 | the role is kept, string content is unchanged, array content becomes its part texts joined by one space |
| `StreamText.FlattenParts` | app/lib/.server/llm/stream-text.ts:90 | flattened parts have length "texts + (n − 1)"; text k sits at its offset and is followed by one space unless it is last |
| `StreamText.FlattenAll` | app/lib/.server/llm/stream-text.ts:88-91 | every message is flattened, with the list's length and order kept |
| `StreamText.MergeOptions` | app/lib/.server/llm/stream-text.ts:93-99 | the model lookup is never overridden; with no options the call is unchanged; otherwise each key the options give wins |
| `StreamText.StreamText` | app/lib/.server/llm/stream-text.ts:58-99 | the engine call uses the resolved provider and model with the caller's keys, the system prompt, the ceiling of the resolved model and the flattened processed messages, with the options merged in |
| `Enhancer.Validate` | app/routes/api.enhancer.ts:24-36 | a missing, non-string or empty model gives the model error first; otherwise such a provider name gives the provider error; it passes exactly when both are non-empty strings |
| `Enhancer.EnhancerCall` | app/routes/api.enhancer.ts:39-78 | exactly one user message, with string content that starts with the directive header and then the instructions; no options; API keys passed through unchanged |
| `Enhancer.DirectiveHeader` | app/routes/api.enhancer.ts:44 | the header is 25 characters longer than the model and provider names together; `DirectiveHeaderShape` gives its layout |
| `Enhancer.DirectiveHeaderShape` | app/routes/api.enhancer.ts:44 | the header is `[Model: `, the model, `]\n\n`, `[Provider: `, the provider name and `]\n\n`, at those exact positions |
| `Enhancer.ClassifyFailure` | app/routes/api.enhancer.ts:98-111 | 401 exactly when the caught value is an `Error` whose message contains `API key` at some index; every other failure is a bare 500 |
| `Enhancer.Respond` | app/routes/api.enhancer.ts:91-111 | a stream gives a 200 with exactly the three headers; a failure is classified |
| `Enhancer.EnhancerAction` | app/routes/api.enhancer.ts:21-111 | each validation failure is a 400 with its message and no dispatch; dispatch happens exactly when both checks pass, with the enhancer's call, and the response follows its outcome |
| `Enhancer.EnhancerStatus` | app/routes/api.enhancer.ts:24-111 | 400 exactly when nothing was dispatched, with the validation message as its body; 200 exactly when the dispatch streamed; a 401 has the body `Invalid or missing API key`; a 500 has no body; a 200 has exactly the three headers |

## Left out

- The streaming engine, `getModel` and `getSystemPrompt` (stream-text.ts:93-99) are foreign calls. `StreamText.StreamText` returns the arguments it would pass to them (`EngineCall`, `ModelLookup`); the system prompt is a constant in `Config`. The `env` argument is not modelled.
- `getModelList` (stream-text.ts:66) discovers providers over the network. Its result is the `modelList` input.
- The directive patterns are abstract (`Pattern`), so nothing is claimed about their syntax. A capture group that did not participate in the match is not modelled: `find` returns a string. Facts about cleaned text hold only under the assumptions a lemma names in its `requires`.
- `StreamingOptions` models only the keys that can collide with the engine call's own (`system`, `maxTokens`, `messages`). Other option keys pass through to the engine and are not modelled. Neither is a key that is present but set to `undefined`.
- `maxTokenAllowed`, `MAX_TOKENS` and the `maxTokens` option are JavaScript numbers modelled as `int`. `NaN`, which is falsy at stream-text.ts:85 and so falls back to `MAX_TOKENS`, is not modelled, and neither are fractional values. `HasCeiling` is therefore "present and nonzero", the integer reading of truthy.
- `ToolResult`: the arguments and result of a tool invocation have unknown types and are not modelled; the records are carried through unchanged.
- The `TransformStream` (api.enhancer.ts:80-89) decodes and re-encodes UTF-8 chunks of a streamed body. That is I/O and is not modelled.
- CleanTextHasNoDirective, ExtractTwiceIsExtractOnce: these need two assumptions about the patterns, and the code does not fully clean a text where either fails, so cleaning is then not idempotent. The two lemmas say nothing about such texts. `EraseRemovesMatch` fails, for example, for a pattern without the `g` flag on a text that carries its directive twice, since `replace` strips only the first occurrence (`RepeatedDirectiveSurvivesCleaning` exhibits this); it also fails for a `g` pattern when erasing joins the leftovers into a new match. `ProviderEraseKeepsModelAbsent` fails when removing a provider directive joins or exposes a model directive, for example with a model pattern anchored at the start when the provider directive comes first.
- Respond: the body of a 200 is the engine's stream handle itself, not that stream piped through the transform.
- The request decoding (`request.json`), `console.log`, the `Response` object and the difference between a returned and a thrown `Response` are framework behaviour. An outcome is the `Response` datatype: `Response.Status` and `Response.TextBody` give the status and body of each case (api.enhancer.ts:25-35, 91-97, 102-111), and `EnhancerStatus` states them. The status texts of the 400, 401 and 500 (api.enhancer.ts:27, 34, 104, 110) are not modelled; the 200 sets none.
- `stripIndents` and the prompt template (api.enhancer.ts:45-72) are not part of this model. The template applied to the draft is the `instructions` function parameter of `Enhancer.EnhancerAction`.
- `Enhancer.EnhancerRequest`: the `provider` object is always present. When it is absent, the destructuring at api.enhancer.ts:21 throws before validation, which is JavaScript runtime behaviour. A `message` that is not a string is not modelled either.
- `Enhancer.JsonField` distinguishes only a missing field, a string and any other value, because validation tells nothing else apart.
- Concurrency and async ordering: the only await before dispatch is the registry fetch, and its result is an input.
