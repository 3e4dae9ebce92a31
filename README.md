# rs-agentx chat core, modelled in Dafny

This project models the core of an OpenAI-compatible chat client library:
- **options merge:** per-call options override model-level options field by field;
- **chunk mappers:** two of them turn a provider record into a `Completion`;
- **decoder:** a server-sent-events (SSE) decoder turns the HTTP body into provider records. The format is a simplified subset of the HTML Living Standard, section 9.2;
- **folds:** three of them consume a record or completion stream. They are `collect`, the `<think>`-marking text stream and the full-drain fold of the streaming chat trait;
- **Media codec:** a map encoder and decoder for the `Media` tagged union;
- **builders:** one for messages and one for prompts.

The source comes from several revisions of one design. Each source file is modelled as written, in its own module, and the modules are not reconciled with each other.

| module | file | source |
|---|---|---|
| `Wrappers` | wrappers.dfy | `Option` / `Result` (Rust's own) |
| `Strings` | strings.dfy | `str::split("\n\n")` |
| `Accumulation` | accumulation.dfy | the `get_or_insert_default() +=` fold and last-write-wins |
| `Usages` | usage.dfy | src/usage.rs |
| `Configs` | config.dfy | src/config.rs |
| `Completions` | completion.dfy | src/completion.rs |
| `Options` | options.dfy | src/options.rs |
| `Responses` | response.dfy | src/response.rs |
| `OpenAIChat` | openai_chat.dfy | src/models/chat/openai.rs |
| `ChatFold` | chat_fold.dfy | src/models/chat.rs |
| `Messages` | message.dfy | src/message.rs |
| `Prompts` | prompt.dfy | src/prompt.rs |
| `MapperPrecedence` | mapper_precedence.dfy | src/models/chat/openai.rs against src/response.rs |

How the model shapes each part:
- **Pure parts are functions.** The accessors, mappers, display, options merge and `Media` serialisation are functions, and their contracts state what the source promises.
- **Loops are methods.** The decoder, the text stream, `collect`, the chat fold and `visit_map` are methods with loops, each proved against a specification function:
  - `Decode` against `DecodeReads`;
  - `TextStream` against `Render(TextFragments(...))`;
  - `Collect` against `Collected`;
  - `StreamingCompletion` against `Drained`;
  - `VisitMap` against `DeserializeAsWritten`, the decoder as written.
- **Lemmas carry the properties.** Lemmas prove what the source promises about those specification functions.
- **Builders are classes.** The two builders are classes whose methods append to a `seq` field.

**Inputs and outside calls.**
- JSON parsing is a parameter `parse: string -> Option<Response>`; `None` means the parse failed.
- The HTTP body is a finite sequence of reads. Each read is a text chunk or a read error, which models `while let Ok(Some(chunk))`.
- Record and completion streams are finite sequences.
- The network, async execution and serde are outside the model.

**Where the code and the design description differ, the model follows the code:**
- `collect` (src/models/chat/openai.rs:223-237) stops only at a record that has no delta and no usage. A record whose delta is present with both text fields absent does not stop the fold. One reading of the design says a record without delta text ends it.
- The two chunk mappers have opposite precedence:
  - `From<Response>` in src/models/chat/openai.rs prefers `message`;
  - `From<ChatResponse>` in src/response.rs lets a present `delta` overwrite it, even when the delta's fields are absent.

  `MapperPrecedence` proves that they agree whenever the first choice lacks a message or a delta. When both are present, they agree exactly when the two content objects are equal.
- The text stream is not claimed to equal a rendering of the collected `Completion`. No file renders a completion, and interleaved reasoning and answer fragments would make such a claim false.
- `Completion::new`, called at src/models/chat/openai.rs:242, is not defined in src/completion.rs. The model uses the `Completion` datatype constructor.
- src/models/openai.rs posts to a required `base_url`, while src/options.rs makes it optional. The model follows src/options.rs and src/models/chat/openai.rs:21-23, which returns an error when it is missing.

## Model

| member | source | states |
|---|---|---|
| Options.Default | src/options.rs:16-20 | the default options are the `Whatever` variant |
| Options.New | src/options.rs:60-66 | all three fields unset |
| Options.OpenAIBuilder | src/options.rs:11-13 | `ModelOptions::openai()` is the empty OpenAI options |
| Options.WithModel | src/options.rs:68-71 | sets exactly the model to `Some(v)`, base URL and key unchanged |
| Options.WithBaseUrl | src/options.rs:73-76 | sets exactly the base URL, model and key unchanged |
| Options.WithApiKey | src/options.rs:78-81 | sets exactly the key, model and base URL unchanged |
| Options.FromOpenAI | src/options.rs:84-88 | wraps the options in the `OpenAI` variant unchanged |
| Options.BorrowOpenAI | src/options.rs:97-103 | the borrowed view keeps all three fields |
| Options.MergeOpenAI | src/options.rs:105-111 | per field: the override's value when set, else the base's |
| Options.FromBorrowedOpenAI | src/options.rs:114-118 | wraps the view in the borrowed `OpenAI` variant unchanged |
| Options.Borrow | src/options.rs:28-33 | same variant; an OpenAI view keeps every field |
| Options.Merge | src/options.rs:35-43 | the three arms in order: OpenAI/OpenAI field-wise, override `Whatever` gives the base's view, base `Whatever` gives the override's |
| Options.MergeWithNewIsBorrow | src/options.rs:105-111 | merging with the empty options as override returns the base's fields |
| Options.MergeIdempotent | src/options.rs:105-111 | merging the same override into a merged value changes nothing |
| Options.MergeAssociative | src/options.rs:105-111 | merging three options gives the same fields however grouped |
| Options.MergeIsWhateverIff | src/options.rs:35-43 | the merge is `Whatever` iff both inputs are, the only case reaching the chat traits' panic |
| Options.DefaultIsNeutral | src/options.rs:35-43 | the default options on either side give the other side's view |
| Options.MergeExample | src/options.rs:105-111 | base URL from the base and model from the override are both kept |
| Completions.WithContent | src/completion.rs:16-22 | content `Some(c)`, the other two absent |
| Completions.WithReasoningContent | src/completion.rs:24-30 | only the reasoning text set |
| Completions.WithUsage | src/completion.rs:32-38 | only the usage set |
| Completions.FieldValue | src/completion.rs:7-12 | `#[serde(default)]`: present exactly when the input has a value, and that value |
| Completions.Deserialize | src/completion.rs:5-13 | each field present exactly when the record has a value for it, and then holding that value |
| Completions.EmptyRecordIsAllAbsent | src/completion.rs:5-13 | a record without fields is the all-absent completion |
| Completions.ConstructorsMatchSingleFieldRecords | src/completion.rs:15-38 | each constructor equals reading a record with only its field |
| Responses.ToCompletion | src/response.rs:28-48 | usage copied; empty choices give no text; a present delta supplies both texts, overriding message; otherwise message; otherwise none |
| Responses.OnlyFirstChoiceMatters | src/response.rs:32 | choices after the first do not change the result |
| Responses.TextFieldsShareOneSource | src/response.rs:32-41 | both texts come from one content object of the first choice, or both are absent |
| OpenAIChat.RequireBaseUrl | src/models/chat/openai.rs:21-23 | an error exactly when no base URL is set, else that URL |
| OpenAIChat.Message | src/models/chat/openai.rs:99-103 | the first choice's message, absent without choices |
| OpenAIChat.Delta | src/models/chat/openai.rs:105-116 | the first choice's delta, absent without choices |
| OpenAIChat.ContentOf | src/models/chat/openai.rs:71-80 | message's content when a message is present (even if absent), else delta's, else none |
| OpenAIChat.ReasoningContentOf | src/models/chat/openai.rs:82-97 | the same rule for the reasoning text |
| OpenAIChat.AccessorsReadOneSource | src/models/chat/openai.rs:71-97 | both accessors read the same content object |
| OpenAIChat.ToCompletion | src/models/chat/openai.rs:127-135 | the accessors' values and the usage, unchanged |
| OpenAIChat.CompletionStream | src/models/chat/openai.rs:178-182 | every record mapped, in order, same length |
| OpenAIChat.Display | src/models/chat/openai.rs:137-154 | empty unless the message has content |
| OpenAIChat.DisplayFromAccessors | src/models/chat/openai.rs:137-154 | with message content: `<think>`+reasoning+`</think>` when reasoning is present, then the content |
| OpenAIChat.DisplayIgnoresDelta | src/models/chat/openai.rs:137-154 | replacing the delta never changes the display |
| Strings.Split | src/models/chat/openai.rs:164 | splitting yields at least one fragment |
| Strings.JoinSplit | src/models/chat/openai.rs:164 | joining the fragments with the separator gives the chunk back |
| Strings.SplitPartsHaveNoSeparator | src/models/chat/openai.rs:164 | no fragment contains the blank-line separator |
| Strings.SplitAfterCleanPiece | src/models/chat/openai.rs:164 | a clean piece followed by the separator is split off as one fragment |
| Strings.SplitHeadEndsAtFirstSeparator | src/models/chat/openai.rs:164 | matching is leftmost: the first fragment is the text up to the first `\n\n`, or all of it when there is none |
| Strings.SplitClean | src/models/chat/openai.rs:164 | a text without `\n\n` is a single fragment |
| OpenAIChat.ParsedPrefix | src/models/chat/openai.rs:166-170 | every emitted record is the parse of the payload at its position, and where it stops the payload fails to parse |
| OpenAIChat.DecodeLinesIsParsedPrefix | src/models/chat/openai.rs:164-171 | within a chunk: the parsed prefix of its data payloads, broken off exactly when one fails |
| OpenAIChat.DecodeIsParsedPrefixOfPayloads | src/models/chat/openai.rs:162-173 | the output is the in-order parses of all data payloads across chunks up to the first failure |
| OpenAIChat.StopsForGoodAtFirstFailure | src/models/chat/openai.rs:166-170 | after a payload fails to parse, nothing read later is emitted |
| OpenAIChat.PayloadsAppend | src/models/chat/openai.rs:162 | payloads of later reads follow earlier ones, and nothing follows a read error |
| OpenAIChat.NonDataChunkAddsNothing | src/models/chat/openai.rs:165 | a chunk without `data: ` fragments adds no record |
| OpenAIChat.OneRecordChunk | src/models/chat/openai.rs:164-167 | a chunk `data: <json>` plus blank line yields exactly that json's record |
| OpenAIChat.SplitRecordEndsStream | src/models/chat/openai.rs:162-170 | a read ending inside a record, after its `data: ` prefix, whose half fails to parse ends the stream: nothing from it or any later read is emitted |
| OpenAIChat.SplitRecordExample | src/models/chat/openai.rs:162-170 | `data: {`, then `}` and a blank line, then a whole record decode to nothing at all |
| OpenAIChat.DecodeChunk | src/models/chat/openai.rs:164-171 | the inner loop computes the chunk's decoded records and break flag |
| OpenAIChat.Decode | src/models/chat/openai.rs:161-173 | the nested loop with `break 'outer` yields exactly the specified records |
| OpenAIChat.TextEnd | src/models/chat/openai.rs:188-210 | the first record without a delta, or the length |
| OpenAIChat.RenderSnoc | src/models/chat/openai.rs:194-207 | a fragment renders after its predecessor, with a marker only at a reasoning/answer transition |
| OpenAIChat.ReasoningStep | src/models/chat/openai.rs:194-200 | `<think>` is emitted exactly when reasoning arrives with the flag off, and the flag is then on |
| OpenAIChat.AnswerStep | src/models/chat/openai.rs:201-207 | `</think>` is emitted exactly before answer text that arrives with the flag on, and the flag is then off |
| OpenAIChat.RecordStep | src/models/chat/openai.rs:189-207 | one record's reasoning, then answer, adds exactly what the flag machine emits |
| OpenAIChat.EmitRecord | src/models/chat/openai.rs:194-207 | the loop body yields the record's strings and the new flag |
| OpenAIChat.TextStream | src/models/chat/openai.rs:184-215 | the flag loop yields the adjacency rendering of the fragments before the first record without a delta |
| OpenAIChat.TextStopsAtMissingDelta | src/models/chat/openai.rs:208-210 | records after one without a delta, such as usage-only records, are never rendered |
| OpenAIChat.NoClosingMarkerAtEnd | src/models/chat/openai.rs:208-211 | a stream ending in reasoning ends with that text, with no `</think>` |
| OpenAIChat.ReasoningThenAnswer | src/models/chat/openai.rs:194-207 | a reasoning record then an answer record give `<think>`, why, `</think>`, answer |
| OpenAIChat.CollectEnd | src/models/chat/openai.rs:222-237 | the first record with neither delta nor usage, or the length |
| OpenAIChat.CollectStep | src/models/chat/openai.rs:228-240 | one record appends its delta texts and overwrites the usage when present |
| OpenAIChat.Collect | src/models/chat/openai.rs:217-248 | the loop with three accumulators computes the specified completion |
| OpenAIChat.CollectedTexts | src/models/chat/openai.rs:228-234 | each text is the in-order concatenation of the present fragments, absent when there were none |
| OpenAIChat.CollectedUsage | src/models/chat/openai.rs:238-240 | the usage is the last reported before termination, absent only if none was |
| OpenAIChat.UsageOnlyRecordIsAbsorbed | src/models/chat/openai.rs:235-240 | a usage-only record does not end the fold |
| OpenAIChat.CollectEndAppend | src/models/chat/openai.rs:222-237 | after records that do not end the fold, the fold goes on into what follows |
| OpenAIChat.CollectExample | src/models/chat/openai.rs:217-248 | "He", "llo" and a usage-only record collect into "Hello" with that usage |
| Accumulation.ConcatSomeSnoc | src/models/chat/openai.rs:229 | one more piece is appended, creating the total if needed |
| Accumulation.Somes | src/models/chat/openai.rs:228-234 | the present pieces: every present value is among them, and each of them is a present value |
| Accumulation.ConcatSomeIsConcatOfSomes | src/models/chat/openai.rs:228-234 | the fold is the concatenation of the present pieces, absent iff there are none |
| Accumulation.ConcatSomePresentIff | src/models/chat.rs:48-54 | the total is present iff some piece is, even an empty one |
| Accumulation.LastSomeSnoc | src/models/chat.rs:55-57 | a present value replaces the stored one |
| Accumulation.LastSomeIsLastWrite | src/models/chat.rs:55-57 | absent iff all are absent, else the value after which all are absent |
| ChatFold.DrainedSnoc | src/models/chat.rs:47-57 | every chunk, whatever it holds, is folded in: texts appended, usage overwritten when present |
| ChatFold.StreamingCompletion | src/models/chat.rs:36-67 | a failure to open the stream is returned; otherwise the loop drains the whole stream into the specified completion |
| ChatFold.DrainedTexts | src/models/chat.rs:48-54 | each text is the in-order concatenation of the chunks' present pieces, independently |
| ChatFold.DrainedPresentIff | src/models/chat.rs:48-54 | a text is present iff some chunk carries it, even as "" |
| ChatFold.DrainedUsage | src/models/chat.rs:55-57 | the usage is last-write-wins over chunks reporting one |
| MapperPrecedence.AgreeUnlessBothPresent | src/response.rs:32-41 | without both message and delta, the two mappers give the same completion |
| MapperPrecedence.OppositePrecedence | src/response.rs:33-40 | with both, one takes the message's texts and the other the delta's; they agree iff the two are equal |
| Messages.Serialize | src/message.rs:40-63 | two entries: the tag under `type`, then the payload under the key named like the tag |
| Messages.Fill | src/message.rs:97-129 | a key whose slot is filled fails as duplicate before its value is read; a wrongly shaped value fails as a type error; otherwise the new slots are the old ones with the key's slot set to the value read |
| Messages.FillAll | src/message.rs:97-130 | the key loop fails only with duplicate-field or a type error |
| Messages.Finish | src/message.rs:131-149 | missing `type`, unknown tag, empty payload slot each give their error; success iff the tag is known and its slot is filled, and then the variant the tag names holding that slot's value |
| Messages.DeserializeAsWritten | src/message.rs:89-150 | the decoder as written gives what the corrected decoder gives, except that an unknown tag is reported with the three-name list |
| Messages.Deserialize | src/message.rs:89-150 | the corrected decoder: success only with an accepted tag; an unknown-variant error names a tag outside the list and lists every accepted tag |
| Messages.VisitMap | src/message.rs:89-150 | the key loop with early returns computes the decoder as written, its three-name unknown-variant list included |
| Messages.RoundTrip | src/message.rs:40-150 | for both decoders, decoding the encoding of any `Media` gives it back |
| Messages.FillAllSlots | src/message.rs:97-130 | after the loop a slot is filled iff some key wrote to it |
| Messages.FillAllOkHasNoRepeat | src/message.rs:97-130 | a successful loop saw no two keys sharing a slot |
| Messages.FirstRepeatIsDuplicate | src/message.rs:99-128 | for both decoders, the first key whose slot is already filled fails with duplicate-field, named by that key |
| Messages.MissingTypeFails | src/message.rs:131 | for both decoders, without a `type` key decoding fails, with missing-field `type` when every key was read |
| Messages.BothUrlKeysAreDuplicate | src/message.rs:111-128 | for both decoders, `image_url` and `video_url` together fail as a duplicate, in either order |
| Messages.SharedUrlSlot | src/message.rs:136-143 | for both decoders, type `image_url` with a `video_url` key decodes to `ImageUrl`, and the converse |
| Messages.EmptyPayloadSlotFails | src/message.rs:132-144 | for both decoders, a known tag without its payload fails with missing-field for that tag |
| Messages.UnknownTagFails | src/message.rs:145-148 | an unknown tag fails with unknown-variant naming the tag and every accepted tag |
| Messages.ListedVariantsOmitText | src/message.rs:145-148 | as written, the unknown-variant list omits `text`, which is accepted |
| Messages.SystemMessage | src/message.rs:164-169 | a text message with the system role |
| Messages.UserMessage | src/message.rs:171-176 | a text message with the user role |
| Messages.AssistantMessage | src/message.rs:178-183 | a text message with the assistant role |
| Messages.MessageBuilder.constructor | src/message.rs:193-195 | starts with no media |
| Messages.MessageBuilder.Text | src/message.rs:197-200 | appends one text item at the end |
| Messages.MessageBuilder.ImageUrl | src/message.rs:202-205 | appends one image URL at the end |
| Messages.MessageBuilder.Video | src/message.rs:207-210 | appends one video list at the end |
| Messages.MessageBuilder.VideoUrl | src/message.rs:212-215 | appends one video URL at the end |
| Messages.MessageBuilder.Build | src/message.rs:217-222 | a media message with that role and the media in call order |
| Messages.ImageQuestion | src/models/chat.rs:109-114 | an image then a question give exactly those two media, in order |
| Prompts.New | src/prompt.rs:37-39 | holds exactly the given messages |
| Prompts.IntoMessages | src/prompt.rs:24-28 | the list a prompt converts to rebuilds that prompt |
| Prompts.NewRoundTrip | src/prompt.rs:24-28 | converting a new prompt back gives the list, and the converse |
| Prompts.UserPrompt | src/prompt.rs:41-43 | one user text message |
| Prompts.PromptBuilder.constructor | src/prompt.rs:53-55 | starts with no messages |
| Prompts.PromptBuilder.Message | src/prompt.rs:57-60 | appends at the end, earlier messages untouched |
| Prompts.PromptBuilder.System | src/prompt.rs:62-64 | appends one system text message |
| Prompts.PromptBuilder.User | src/prompt.rs:66-68 | appends one user text message |
| Prompts.PromptBuilder.Assistant | src/prompt.rs:70-72 | appends one assistant text message |
| Prompts.PromptBuilder.Build | src/prompt.rs:74-76 | the messages in insertion order |
| Prompts.ImageQuestionPrompt | src/models/chat.rs:107-115 | the example prompt: the system message, then the user's image and question |

## Left out

- The HTTP transport is left out because it is network I/O. This covers `api` (src/models/chat/openai.rs:11-45) apart from its base-URL check, `completion` (119-125) and `stream`'s request (160).
- src/models/openai.rs is left out because its `stream_openai` is a spawned producer feeding a channel. Its `data:` filter is superseded by the decoder in src/models/chat/openai.rs.
- src/models/chat/mod.rs and the trait dispatch in src/models/chat.rs:14-34 are left out because they only compose the merge with transport calls. The panic condition is stated by `Options.MergeIsWhateverIff`.
- JSON parsing is a parameter, because serde is not modelled. `String::from_utf8_lossy` is left out: chunks are taken as text already.
- `OpenAIChat.Decode` does not model the stream's laziness, because the result is the same sequence. It collects one chunk's records before emitting them, where the source yields each record on its own.
- The decoder handles only what the source handles. Nothing is carried over between chunks, as in the source. A record split across two reads after its `data: ` prefix fails to parse, and the stream ends there: the rest of that record and every valid record after it are dropped (`OpenAIChat.SplitRecordEndsStream`).
- Async streams and pinned boxes are finite sequences. An infinite stream is not modelled.
- `Messages.VisitMap` restricts keys to the five `MediaKey` names, because serde's handling of unknown keys is its own machinery.
- `Messages.VisitMap` restricts values to three shapes: a string, a `{"url"}` object and a list of strings. A wrongly shaped value gives `InvalidType`, and serde's other accepted encodings for `Url` are not modelled.
- The untagged `Message` (de)serialisation (src/message.rs:156-161) is left out because it is serde machinery.
- `Display for Url` (src/message.rs:34-38) is modelled as the URL string itself.
- `Prompt`'s `Deref`, `DerefMut` and reference conversion (src/prompt.rs:10-34) are left out because they are borrowed views with no logic.
- The builders take `self` by value and return it. The model mutates a class field instead, and no aliasing arises.
- src/lib.rs and src/models/mod.rs are left out because they only re-export. src/usage.rs and src/config.rs are plain records, declared as datatypes with nothing to prove.

## Findings

| source | as written | input that shows it | evidently intended | confidence | as-written member | corrected member |
|---|---|---|---|---|---|---|
| src/message.rs:145-148 | the unknown-variant error lists `image_url`, `video`, `video_url` as the expected tags | a map with `"type": "audio"` is rejected with that list, although `"type": "text"` is accepted | the list names every accepted tag, `text` included | medium, not executed | Messages.ListedVariantsOmitText | Messages.UnknownTagFails |
