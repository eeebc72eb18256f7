# StreamCraft generation core, modelled in Dafny

StreamCraft is a single-page tool for streamers. From one uploaded picture it
produces a Twitch emote, a stylised portrait, or a copy of the subject on a
new background. An image model does the drawing. The program's own logic is
small:

- three prompt composers (`generateEmote`, `generatePortrait`,
  `removeBackground`) that assemble a fixed Spanish instruction from named
  pieces, the user's options and free text;
- the normalisation of the uploaded image (`imageBase64.split(',')[1] || imageBase64`);
- the request sent to the model and the reading of its reply (`callGemini`);
- the page's state machine in `App.tsx`: submit, settle, switch tab, and the
  initial defaults.

The Dafny modules follow that structure:

| module | file | contents |
|---|---|---|
| `Wrappers` | `wrappers.dfy` | `Option`, `Result` |
| `Text` | `text.dfy` | concatenation of segment lists, substring containment, prefixes, JavaScript `split`/`join` on one character |
| `Types` | `types.dfy` | the four enums with their exact labels and catalogues, the three request records, the label cast used by the select controls |
| `Payload` | `payload.dfy` | data URIs and the base64 normalisation |
| `Prompts` | `prompts.dfy` | the three composers, the style table and the background table |
| `Gemini` | `gemini.dfy` | request and reply shapes, reply extraction (function and loop), the three entry points |
| `App` | `app.dfy` | page state, transitions, events, traces and the invariant kept while only the button submits |

The image service is a parameter `Service = Request -> Result<Response, string>`.
A generation in flight is a pending counter, and its completion is a later
`Settle` event.

In these places the model follows the code as written:

- `handleGenerate` has no guard against a second submission. Only the
  button's `disabled={disabled || isGenerating}` prevents one.
  `App.HandleGenerate` has no guard. The `Click` event goes through the
  button's check. `App.HandlerHasNoGuard` shows what two overlapping
  submissions do.
- An empty part list is truthy in JavaScript. A reply whose part list is
  present but empty therefore fails with "La API no devolvió una imagen
  válida.", not with "No se generó contenido." (`Gemini.EmptyPartsIsNoValidImage`).
- `!selectedImage` also holds for the empty string. `App.HasImage` requires a
  present, non-empty image.

## Model

| member | source | states |
|---|---|---|
| Payload.DataUri | services/geminiService.ts:170 | The URI is "data:" followed by the mime type and ";base64,", and ends with the payload itself, which Payload.CleanDataUri recovers |
| Payload.CleanBase64 | services/geminiService.ts:9 | The result is the text between the first and second comma when that text exists and is non-empty, otherwise the input unchanged; so it is either the input or a non-empty comma-free payload |
| Payload.CleanWithoutComma | services/geminiService.ts:9 | An input without a comma is passed through unchanged |
| Payload.CleanOneComma | services/geminiService.ts:9 | With exactly one comma the text after it is kept; with a trailing comma (empty second piece) the whole input is kept |
| Payload.CleanSeveralCommas | services/geminiService.ts:9 | With more than one comma only the piece between the first two commas is kept, unless that piece is empty |
| Payload.CleanIdempotent | services/geminiService.ts:9 | Normalising twice gives the same as normalising once |
| Payload.CleanDataUri | services/geminiService.ts:9 | A data URI with a non-empty comma-free payload normalises to the payload, exactly as the bare payload does |
| Payload.CleanEmptyDataUri | services/geminiService.ts:9 | A data URI with an empty payload is sent whole, unlike the bare empty payload |
| Payload.SecondPieceOfSplit | services/geminiService.ts:9 | `split(',')` has a second piece exactly when the input has a comma, and that piece is the text after the first comma up to the next |
| Text.JoinSplit | services/geminiService.ts:9 | Joining the pieces of `split` with the separator restores the input |
| Text.SplitJoin | services/geminiService.ts:9 | Splitting a join of separator-free pieces gives back the pieces |
| Text.Split | services/geminiService.ts:9 | `split` yields at least one piece, no piece holds the separator, and the input is the only piece exactly when it has no separator |
| Types.EmoteStyleCatalogue | types.ts:1-8 | Six emote styles, each listed once, with pairwise-distinct labels; the sentinel's label is "Ninguno / Personalizado"; the label cast inverts the labels and fails exactly on non-labels |
| Types.PortraitStyleCatalogue | types.ts:10-29 | Eighteen portrait styles, pairwise-distinct labels, label cast inverts them; the portrait sentinel's label equals the emote sentinel's |
| Types.BackgroundOptionCatalogue | types.ts:31-39 | Seven background options with pairwise-distinct labels; label cast inverts them |
| Types.EmoteEmotionCatalogue | types.ts:41-49 | Seven emotions with pairwise-distinct labels; label cast inverts them |
| Types.FirstWithLabel | components/Controls.tsx:37 | The cast of a selected string finds a member carrying that label, and fails exactly when no member carries it |
| Types.LabelCastInverts | components/Controls.tsx:52 | For a complete catalogue with injective labels, casting a member's label gives back the member and casting fails exactly on strings that are no label |
| Prompts.EmotePrompt | services/geminiService.ts:11-44 | The emote template; its contract is carried by Prompts.EmoteBranchFollowsSentinel, Prompts.EmotePromptOpensWithBranch, Prompts.EmotePromptMentionsRequest and Prompts.EmoteRequirementContained |
| Prompts.EmoteBranchFollowsSentinel | services/geminiService.ts:11-28 | The style instruction is the preserve-the-original-look text, and the first requirement is the crop rule, exactly when the style is the sentinel |
| Prompts.EmotePromptOpensWithBranch | services/geminiService.ts:14-37 | The emote instruction starts with the introduction followed by the preserve text for the sentinel, or by "Aplica fuertemente el estilo artístico: " and the style label otherwise |
| Prompts.EmoteSentinelBranch | services/geminiService.ts:11-28 | For the sentinel the instruction contains the preserve text, the crop, background, natural-expression (with the emotion label) and 28px legibility rules |
| Prompts.EmoteStylisedBranch | services/geminiService.ts:11-28 | For any other style the instruction contains the strong-style line with the style label, and the flat-colour, solid-background, big-head and exaggerated-expression (with the emotion label) rules |
| Prompts.EmotePromptMentionsRequest | services/geminiService.ts:30-44 | In both branches the emote instruction contains the emotion label, the user's text verbatim and "5. No incluyas texto pequeño." |
| Prompts.EmoteRequirementContained | services/geminiService.ts:18-41 | Every numbered requirement of the chosen branch appears in the emote instruction |
| Prompts.StyleInstructions | services/geminiService.ts:129-147 | The portrait style table; its contract is carried by Prompts.StyleInstructionsTable |
| Prompts.StyleInstructionsTable | services/geminiService.ts:129-147 | The style table is total: Comic, Cyberpunk, Sketch and Oil Painting, and only they, get the generic block; each of the other fourteen styles has a block no other style gets |
| Prompts.PortraitPrompt | services/geminiService.ts:58-76 | The portrait template; its contract is carried by Prompts.PortraitPromptMentionsRequest and Prompts.PortraitRequirementContained |
| Prompts.PortraitPromptMentionsRequest | services/geminiService.ts:58-76 | The portrait instruction contains the style label, the user's text verbatim, the style's block, and all five general rules including the GTA and Disney/Pixar rules, for every style |
| Prompts.PortraitRequirementContained | services/geminiService.ts:68-73 | Each of the five general portrait requirements appears in the portrait instruction |
| Prompts.BackgroundInstruction | services/geminiService.ts:116-124 | The description of each background option; its contract is carried by Prompts.BackgroundInstructionTable |
| Prompts.BackgroundInstructionForValue | services/geminiService.ts:116-126 | The lookup on the option's string value with the generic default; its contract is carried by Prompts.BackgroundInstructionTable |
| Prompts.BackgroundInstructionTable | services/geminiService.ts:116-127 | Each of the seven options has its own description, never the generic one, and no two share one; a string value gets its option's description when it is a label and the generic description exactly when it is not |
| Prompts.BackgroundPrompt | services/geminiService.ts:90-107 | The background-removal template; its contract is carried by Prompts.BackgroundPromptMentionsRequest and Prompts.StrictRuleContained |
| Prompts.BackgroundPromptMentionsRequest | services/geminiService.ts:90-107 | The background instruction contains the option's description, the user's text verbatim and the same five strict rules for every option |
| Prompts.StrictRuleContained | services/geminiService.ts:99-104 | Each of the five strict rules appears in the background instruction |
| Gemini.BuildRequest | services/geminiService.ts:150-163 | The request names model "gemini-2.5-flash-image" and has two parts: the instruction as text only, then the image tagged "image/jpeg" with no text |
| Gemini.RequestEchoYieldsImage | services/geminiService.ts:153-172 | Reading a reply whose parts equal the request's parts yields the sent payload as a JPEG data URI, the text part being skipped |
| Gemini.ResponseParts | services/geminiService.ts:165 | The parts are present exactly when there is a first candidate with content carrying a part list, and then they are that first candidate's parts |
| Gemini.FirstImageIndex | services/geminiService.ts:168-172 | The index found is of a part with inline data and no earlier part has any; none is found exactly when no part has inline data |
| Gemini.ExtractFromParts | services/geminiService.ts:168-173 | Success exactly when some part has inline data, and then the data URI of the first such part with its own mime type and data (each "undefined" when absent); otherwise the "no valid image" failure |
| Gemini.MissingFieldsPrintUndefined | services/geminiService.ts:169-170 | An image part lacking its mime type or its data is still taken, and the missing field reads "undefined" in the data URI |
| Gemini.ExtractImage | services/geminiService.ts:165-173 | "No se generó contenido." exactly when the parts are absent; when they are present the outcome is the reading of those parts: "no valid image" exactly when none has inline data, otherwise the first image as a data URI |
| Gemini.ScanParts | services/geminiService.ts:168-173 | The early-return loop over the parts returns the same outcome as the extraction |
| Gemini.ExtractTakesFirstOfImages | services/geminiService.ts:168-173 | The extraction returns the first element of the list of all inline images, and fails exactly when that list is empty |
| Gemini.ExtractSkipsTextParts | services/geminiService.ts:168-172 | Parts without inline data before the image do not change the outcome |
| Gemini.FailureMessages | services/geminiService.ts:166-173 | The two extraction failures carry the two fixed, different messages |
| Gemini.MissingPartsIsNoContent | services/geminiService.ts:165-166 | No candidate list, an empty one, or a first candidate without content gives "No se generó contenido." |
| Gemini.EmptyPartsIsNoValidImage | services/geminiService.ts:165-173 | A present but empty part list gives "La API no devolvió una imagen válida." |
| Gemini.CallGemini | services/geminiService.ts:149-174 | A transport failure exactly when the client fails on the built request; otherwise the reading of the reply to that request |
| Gemini.Send | services/geminiService.ts:149-174 | A failing client gives the transport failure with its reason; otherwise the outcome is the reading of the reply |
| Gemini.EmoteCallsGemini | services/geminiService.ts:46 | The emote entry point's outcome is that of `callGemini` on the emote instruction and the normalised image |
| Gemini.PortraitCallsGemini | services/geminiService.ts:78 | The portrait entry point's outcome is that of `callGemini` on the portrait instruction and the normalised image |
| Gemini.RemoveBgCallsGemini | services/geminiService.ts:109 | The background-removal entry point's outcome is that of `callGemini` on its instruction and the normalised image |
| Gemini.ImageRequest | services/geminiService.ts:46 | The request of every entry point carries the normalised image, tagged "image/jpeg" |
| Gemini.RequestIgnoresDataUriPrefix | services/geminiService.ts:56 | Whether the image arrives as a data URI or as bare base64, an entry point sends the same request, carrying the bare payload |
| Gemini.GenerateEmote | services/geminiService.ts:6-51 | The outcome is a transport failure exactly when the client fails on the emote request; otherwise it is the reading of the reply to that request |
| Gemini.GeneratePortrait | services/geminiService.ts:53-83 | The outcome is a transport failure exactly when the client fails on the portrait request; otherwise it is the reading of the reply to that request |
| Gemini.RemoveBackground | services/geminiService.ts:85-114 | The outcome is a transport failure exactly when the client fails on the background request; otherwise it is the reading of the reply to that request |
| App.InitialState | App.tsx:15-34 | Emote tab, no image, no result, not generating, no error; Cartoon / Hype, Disney 3D, Transparent; empty prompts; the state is consistent and the button disabled |
| App.Dispatch | App.tsx:45-64 | The call goes to the current tab's entry point, carrying the selected image, that tab's text and that tab's options |
| App.DispatchUsesTabEntryPoint | App.tsx:45-64 | The dispatched call settles to what `generateEmote`, `generatePortrait` or `removeBackground` returns for the current tab's options |
| App.HandleGenerate | App.tsx:36-41 | Without an image nothing changes and no call goes out; with one the page is generating with result and error cleared, the user's choices kept, and the current tab's call goes out |
| App.Complete | App.tsx:65-71 | Success stores the result; failure shows the one fixed message and leaves the result as it was; both end generation and keep the user's choices |
| App.SwitchTab | App.tsx:84-106 | Sets the mode and clears result and error; selected image, generating flag and all options are unchanged |
| App.RawSubmit | App.tsx:36-41 | Calling the handler with an image adds a pending generation even while one is running |
| App.SubmitThenSettle | App.tsx:36-72 | After submit and settle the result is shown exactly when the service succeeded, the fixed error exactly when it failed, never both, and generation is over |
| App.Step | App.tsx:36-175 | An enabled click runs the handler and adds a pending generation; a disabled click changes nothing; a settle with one pending completes it and ends generation; a tab choice is the tab switch; each editing event stores exactly the chosen value and leaves every other field, the pending count and the generating flag unchanged |
| App.StepPreservesConsistent | App.tsx:36-106 | With the button as the only way to submit, every event keeps the invariant: at most one pending generation, exactly while generating; nothing shown while generating; never result and error together |
| App.RunPreservesConsistent | App.tsx:36-106 | Every sequence of events from a consistent state, the initial one included, keeps the invariant |
| App.ButtonIgnoresSecondSubmit | components/Controls.tsx:76 | A click while generating, or without an image, changes nothing and sends no call |
| App.StaleResultAfterTabSwitch | App.tsx:65-95 | A result arriving after a tab switch is still stored and shown on the new tab |
| App.HandlerHasNoGuard | App.tsx:36-72 | The handler starts a second generation while one runs; if the first fails and the second succeeds, the page shows error and result together, and reports "not generating" while one is still pending |

## Left out

- The `GoogleGenAI` client, the API key and the network call are not modelled. The client is the `Service` parameter. Its answer is taken as given.
- `console.error` logging and the catch-and-rethrow wrappers are not modelled. They only pass the error on.
- Async timing is modelled only as a count of pending generations. `Settle` events carry outcomes in any order the caller picks.
- Rendering, styling, the uploader's `FileReader`, the result slider and the header are not modelled. An upload is a `ChooseImage` event carrying the data URI.
- The `GeneratedEmote` record (types.ts:70-73) is not modelled. The core never uses it.
- Whitespace: the instruction texts are reproduced piece by piece. The properties state containment and opening text, not exact layout.
- Prompts.EmoteSentinelBranch: states that the branch's texts are present. It does not state that the other branch's texts are absent, because the user's free text is inserted verbatim and may contain them. Prompts.EmoteBranchFollowsSentinel states which branch is chosen instead.
- Prompts.EmoteStylisedBranch: states that the stylised branch's texts are present, not that the preserve text and the sentinel rules are absent, for the same reason. Prompts.EmoteBranchFollowsSentinel states which branch is chosen instead.
- Prompts.PortraitPromptMentionsRequest: states that the style block is present, not that it appears exactly once, for the same reason.
- Gemini.ExtractImage: candidates after the first are ignored, as in the code.
- Types.FirstWithLabel: the select controls' `as` casts are modelled as a lookup by label. A string that is no label yields `None`, where the program would carry an off-catalogue value on.
