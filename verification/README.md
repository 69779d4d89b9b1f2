# CineLab in Dafny

CineLab turns a reference photograph into a cinematography "recipe". A five-step
wizard collects the user's choices: reference image, camera and lens, art direction,
lighting, and output. `buildPrompt` renders those choices into a fixed prompt text.
The prompt and the image go to one of three AI providers (Gemini, OpenAI or
Anthropic), and the provider answers with JSON shaped by a fixed response schema.
A command-line batch script, `fabricate`, does the same for a whole folder of images.
It reads a configuration saved from the wizard and sends several requests at once.

This project models everything around the network calls:

| module (file) | models |
|---|---|
| `ResponseSchema` (response_schema.dfy) | the JSON-Schema-style node type and the `CINE_RECIPE_SCHEMA` tree |
| `GeminiSchema` (gemini_schema.dfy) | `toGeminiSchema`, the recursive translation to Gemini's upper-case format |
| `ProviderConfig` (provider_config.dfy) | the browser's provider resolution: explicit `VITE_PROVIDER` with fall-through, then Gemini → OpenAI → Anthropic |
| `Fabricate` (fabricate.dfy) | the batch script's strict provider resolution, the provider table check, `batchConfigToWizardState`, and `parseArgs` with its concurrency clamp |
| `Batch` (batch.dfy) | image selection (extension filter and sort), output names and MIME types, the `runPool` worker pool, and the success/failure accounting |
| `Wizard` (wizard.dfy) | option lists, step numbers and labels, the wizard state, its actions, the initial state, and the saved `BatchConfig` |
| `WizardReducer` (wizard_reducer.dfy) | `wizardReducer` |
| `Validation` (validation.dfy) | `isStepComplete` and `canNavigateToStep` |
| `PromptBuilder` (prompt_builder.dfy) | `buildPrompt` |
| `LightControls` (light_controls.dfy) | the pan/tilt snap lists, `snapTo`, the pan and tilt labels, the light-spec string, `updateLight`, and the active-light and tab controls |
| `StepOutput` (step_output.dfy) | the config object of "Save Config", and the guard and state updates of "Generate" |
| `JsText` (js_text.dfy) | the JavaScript built-ins the core relies on: ASCII `toUpperCase`/`toLowerCase`, template concatenation, `join`, `String(n)`, `parseInt`, string `<` and `sort()` |
| `Wrappers` (wrappers.dfy) | `Option` and `Result` |

Modelling conventions:
- A JavaScript `null` is `None`.
- A thrown error, or an exit through `process.exit(1)`, is a `Failure` carrying the message text.
- The environment (`process.env`, `import.meta.env`) is a `map<string, string>` parameter.
  A variable that is not defined is a key that is not in the map.
- `VITE_PROVIDER` is cast without a check, so a provider id is one of the three known
  providers or `Unlisted(name)`. Looking up an unlisted provider's key variable gives
  `undefined`, and `env[undefined]` reads the variable named "undefined". The model
  reads that variable too (`ProviderConfig.KeyVarRead`).
- In a template literal, `null` renders as the text "null" (`PromptBuilder.Interpolate`).
- The two stateful pieces are classes or methods:
  - `runPool` is a method that fills an `array` of result slots through a claim counter.
  - The batch accounting is a method whose loop updates `success`, `failed`, `errors` and the written files.
  - `parseArgs` is a method with the source's loop.
  - `snapTo` is a method with the source's scan.
  - The output step's component state is the class `StepOutput.OutputPanel`.
  - Each of these is proved against a recursive specification function. Lemmas then state what the source promises about that function.

## Model

| member | source | states |
|---|---|---|
| ResponseSchema.CineObjectsClosed | src/engine/response-schema.ts:20-130 | every node of type "object" in the recipe schema has `additionalProperties` false |
| ResponseSchema.CineRequiresAllKeys | src/engine/response-schema.ts:20-130 | at every object node, `required` is exactly that node's property keys, in order, each once |
| ResponseSchema.CineKeywordsFitType | src/engine/response-schema.ts:5-12 | `items` appears only on arrays, `properties` and `required` only on objects, `enum` only on strings, at every node |
| ResponseSchema.CineArraysOfStrings | src/engine/response-schema.ts:41-44 | every array node has `items` of type "string" |
| ResponseSchema.CineStandardTypes | src/engine/response-schema.ts:20-130 | every node's type is one of object, array, string, integer |
| ResponseSchema.CineFramingType | src/engine/response-schema.ts:33-36 | `framing_type` is a string with exactly the four framing values as its enum |
| ResponseSchema.CineSingleInteger | src/engine/response-schema.ts:66-85 | the tree has exactly one "integer" node, and it is `phase_2_technical_override.iso` |
| ResponseSchema.CineRootShape | src/engine/response-schema.ts:20-130 | the root requires only `cinematography_recipe`, whose four required children are the phase 1 to 4 objects |
| ResponseSchema.CinePhaseAt | src/engine/response-schema.ts:23-120 | the path `cinematography_recipe` → i-th phase key leads to the i-th phase object |
| ResponseSchema.Child | src/engine/response-schema.ts:7 | looking up a property key finds a child with that key, and fails exactly when the key is not among the properties |
| GeminiSchema.ToGemini | src/engine/providers/gemini.ts:8-22 | the type is upper-cased; `properties` is present iff it was present in the input, with the same keys; `items` is present iff it was present in the input; `required` and `enum` are copied; `additionalProperties` is absent |
| GeminiSchema.ToGeminiChild | src/engine/providers/gemini.ts:12-16 | each output property is the input property's key with the translation of its child |
| GeminiSchema.ToGeminiNodeAt | src/engine/providers/gemini.ts:8-22 | every key/items path reaches, in the output, the translation of what it reaches in the input (so the tree shape is preserved) |
| GeminiSchema.ToGeminiChildByKey | src/engine/providers/gemini.ts:12-16 | looking up a key in the output finds the translation of the input's child under that key |
| GeminiSchema.ToGeminiDropsAdditionalProperties | src/engine/providers/gemini.ts:20 | no node of the output tree, at any depth, carries `additionalProperties` |
| GeminiSchema.ToGeminiIdempotent | src/engine/providers/gemini.ts:8-22 | translating an already translated schema changes nothing |
| GeminiSchema.ToGeminiStandardTypes | src/engine/providers/gemini.ts:10 | a tree whose types are all standard translates to one whose types are all OBJECT, ARRAY, STRING or INTEGER |
| GeminiSchema.GeminiCineTypes | src/engine/providers/gemini.ts:47-51 | the translated recipe schema uses only the four upper-case type tokens |
| ProviderConfig.ParseProviderId | src/engine/provider-config.ts:22 | the cast keeps the provider's name; a name is unlisted exactly when it is not gemini, openai or anthropic |
| ProviderConfig.ParseProviderName | src/engine/provider-config.ts:22 | reading back a provider's name gives the provider |
| ProviderConfig.DefaultModel | src/engine/provider-config.ts:4-8 | exactly the three listed providers have a default model |
| ProviderConfig.KeyEnvVar | src/engine/provider-config.ts:10-14 | exactly the three listed providers have a key variable |
| ProviderConfig.KeyVarRead | src/engine/provider-config.ts:24-30 | `env[KEY_ENV_VARS[p]]` reads the provider's key variable, or the variable "undefined" for an unlisted provider |
| ProviderConfig.KeyEnvVarsDistinct | src/engine/provider-config.ts:10-14 | different listed providers use different key variables |
| ProviderConfig.Explicit | src/engine/provider-config.ts:22-23 | an explicit provider is chosen iff `VITE_PROVIDER` is set and non-empty, and it carries that name |
| ProviderConfig.AutoDetectFrom | src/engine/provider-config.ts:28-32 | the scan succeeds iff some remaining provider has a non-empty key; it returns the first such provider in the order Gemini, OpenAI, Anthropic, with its key |
| ProviderConfig.NoKeyMessageNamesKeys | src/engine/provider-config.ts:34-37 | the no-key message (`ProviderConfig.NoKeyMessage`, the text thrown when no key is set) names all three key variables |
| ProviderConfig.DetectProvider | src/engine/provider-config.ts:20-38 | a detected provider has a non-empty key, and the key returned is that variable's value; failure carries the no-key message |
| ProviderConfig.Auto | src/engine/provider-config.ts:28-37 | auto-detection fails exactly when none of the three key variables is non-empty |
| ProviderConfig.DetectExplicitWithKey | src/engine/provider-config.ts:21-26 | an explicit provider whose key is non-empty is chosen with that key |
| ProviderConfig.DetectExplicitFallsThrough | src/engine/provider-config.ts:21-32 | an explicit provider without a usable key gives the same result as having no `VITE_PROVIDER` at all |
| ProviderConfig.AutoIgnoresProviderVar | src/engine/provider-config.ts:28-37 | auto-detection does not read `VITE_PROVIDER` |
| ProviderConfig.AutoPriority | src/engine/provider-config.ts:28-32 | with no explicit provider: a Google key wins, then an OpenAI key, then an Anthropic key |
| ProviderConfig.DetectFailsOnlyWithoutKeys | src/engine/provider-config.ts:20-38 | detection fails iff no key variable is non-empty (the explicit one included), and its message then names all three variables |
| ProviderConfig.EmptyIsAbsent | src/engine/provider-config.ts:23-31 | setting any variable to "" has the same effect as removing it |
| ProviderConfig.AutoDetectSameKeys | src/engine/provider-config.ts:28-32 | two environments with the same usable keys auto-detect the same result |
| ProviderConfig.ModelFor | src/engine/provider-config.ts:47 | the model is `VITE_MODEL` whenever it is defined, even when empty; otherwise it is the provider's default |
| ProviderConfig.ResolveConfig | src/engine/provider-config.ts:44-49 | resolution fails exactly when detection does; on success it returns the detected provider, that provider's non-empty key, and the model chosen as above |
| ProviderConfig.ResolvedModelDefined | src/engine/provider-config.ts:44-49 | a resolved listed provider always has a model, and without `VITE_MODEL` it is the default |
| Fabricate.ResolveProviderConfig | scripts/fabricate.ts:50-78 | with an explicit provider, resolution fails iff that provider's key is missing or empty, and the message names that provider and its key variable (it never auto-detects); without one, it fails iff no key is usable, with the no-key message; on success, the key and model are as in the browser |
| Fabricate.StrictDiffersOnlyOnMissingKey | scripts/fabricate.ts:50-78 | the batch resolution and the browser resolution differ exactly when an explicit provider's key is missing |
| Fabricate.MissingKeyMessageDiffers | scripts/fabricate.ts:55-77 | the missing-key error is never the no-key error |
| Fabricate.MissingKeyMessageNames | scripts/fabricate.ts:56-59 | the missing-key error names the provider and its key variable |
| Fabricate.SelectProvider | scripts/fabricate.ts:168-173 | a provider runs iff it is one of the three listed; otherwise the error is `Unknown provider: "<id>"` |
| Fabricate.UnlistedProviderNeverRuns | scripts/fabricate.ts:52-63 | an unlisted explicit provider fails resolution unless the variable "undefined" is set, and then fails the provider check |
| Fabricate.BatchConfigToWizardState | scripts/fabricate.ts:80-98 | the rebuilt state is at step 0 with no reference image, preview or generated prompt |
| Fabricate.LoadThenSave | scripts/fabricate.ts:80-98 | saving a rebuilt state gives back the config it was built from |
| Fabricate.SaveThenLoad | src/components/StepOutput.tsx:72-84 | rebuilding a saved state keeps every non-null selection and every text field; a null selection comes back as "" |
| Fabricate.RebuiltSelectionsComplete | scripts/fabricate.ts:80-98 | a rebuilt state has the Equipment, ArtDirection and Lighting steps complete, and Reference and Output incomplete |
| Fabricate.SavedConfigReproducesPrompt | scripts/fabricate.ts:198-200 | for a state that can reach Output, the batch builds the same prompt from the saved config as the wizard builds from the state |
| Fabricate.NullScenarioChangesPrompt | scripts/fabricate.ts:198-200 | a null lighting scenario becomes "" in the saved config, so the batch prompt is 4 characters shorter than the wizard's ("null" is dropped) |
| Fabricate.RebuiltIsEmptyScenario | scripts/fabricate.ts:80-98 | for a state with camera, lens and artist set, rebuilding its saved config builds the prompt of the same state with an empty scenario |
| Fabricate.EmptyScenarioPrompt | src/engine/prompt-builder.ts:49 | replacing a null scenario by "" removes exactly the 4 characters of "null" from the prompt |
| Fabricate.ClampConcurrency | scripts/fabricate.ts:111 | the concurrency is always between 1 and 10 |
| Fabricate.ClampConcurrencyCases | scripts/fabricate.ts:111 | a value that is not a number, or 0, gives 3; a negative value gives 1; 1 to 10 are kept; above 10 gives 10 |
| Fabricate.ConcurrencyOfNumber | scripts/fabricate.ts:111 | the text of any number from 1 to 10 gives that number |
| Fabricate.ParseArgs | scripts/fabricate.ts:100-127 | the loop computes the scan of all arguments from the defaults; the usage exit happens exactly when no folder was given; a result has a folder and a concurrency in 1..10 |
| Fabricate.ScanKeepsConcurrencyRange | scripts/fabricate.ts:106-116 | scanning arguments keeps the concurrency within 1..10 |
| Fabricate.ScanConfigDefault | scripts/fabricate.ts:103-109 | without `--config` the config path keeps its default |
| Fabricate.ScanAppend | scripts/fabricate.ts:106-116 | scanning can be split at any point not right after a value flag |
| Fabricate.OnlyFlagsKeepFolder | scripts/fabricate.ts:106-116 | arguments that are only flags and flag values leave the folder as it was |
| Fabricate.LastPositionalIsFolder | scripts/fabricate.ts:113-115 | the last argument not starting with "--" that is not a flag's value becomes the folder, whatever flags and values follow it |
| Fabricate.DanglingFlagIgnored | scripts/fabricate.ts:107-111 | a value flag with no next argument is skipped: appending it changes nothing |
| Fabricate.SingleFolder | scripts/fabricate.ts:100-127 | a lone folder argument gives that folder, the default config path and concurrency 3 |
| Fabricate.FlagsWithoutFolderIsUsage | scripts/fabricate.ts:118-124 | arguments that are only flags and flag values take the usage exit |
| Fabricate.ScanConcurrencyFlag | scripts/fabricate.ts:110-111 | `--concurrency` with a non-empty value sets the clamped value and skips past the value |
| Fabricate.ScanShift | scripts/fabricate.ts:106-116 | scanning from inside a suffix does not depend on what came before it |
| Fabricate.Scan | scripts/fabricate.ts:106-116 | the loop over the arguments from position i: the folder it ends with is the one it started with or an argument not starting with "--"; ParseArgs and the lemmas above state the rest |
| Batch.Extname | scripts/fabricate.ts:184 | a non-empty extension is a proper suffix of the name that starts with its only dot; an empty one means the name has no dot after its first character, or is ".." |
| Batch.ExtnameOfParts | scripts/fabricate.ts:184 | a dot-free stem followed by ".ext" has extension ".ext" |
| Batch.StemExtname | scripts/fabricate.ts:211 | the stem followed by the extension is the name |
| Batch.Stem | scripts/fabricate.ts:211 | `basename(file, extname(file))` is a prefix of the name, and the whole name when there is no extension |
| Batch.StemShorter | scripts/fabricate.ts:211 | a name with an extension has a non-empty stem shorter than the name |
| Batch.FilterImages | scripts/fabricate.ts:183-184 | the filter keeps exactly the names whose lower-cased extension is an image extension, each as often as it was listed |
| Batch.SelectImages | scripts/fabricate.ts:183-190 | the selection is the image names, sorted; it fails with "No images found in: <folder>" exactly when there are none |
| Batch.ExtnameLeadingDot | scripts/fabricate.ts:184 | a name whose only dot is its first character has no extension |
| Batch.IsImage | scripts/fabricate.ts:184 | a selected name always has an extension; which extensions are selected is stated by ImageOfParts and HiddenFileIsNotImage |
| Batch.ImageOfParts | scripts/fabricate.ts:184 | a dot-free stem followed by ".ext" is selected exactly when ".ext" lower-cased is an image extension, and its stem is that stem |
| Batch.UpperCaseExtensionIsImage | scripts/fabricate.ts:184 | "IMG.JPG" is selected |
| Batch.HiddenFileIsNotImage | scripts/fabricate.ts:184 | a name whose only dot is its first character, such as ".png", is never selected |
| Batch.MimeType | scripts/fabricate.ts:218 | ".png" and ".webp" map to their image types; every other extension gives image/jpeg |
| Batch.OutputName | scripts/fabricate.ts:211 | the output name ends in ".json", and is the name plus ".json" when the name has no extension |
| Batch.OutputNameSameStem | scripts/fabricate.ts:211 | two files get the same output name exactly when they have the same stem |
| Batch.SameStemImagesCollide | scripts/fabricate.ts:184-211 | two image files with the same dot-free stem and different image extensions ("a.jpg", "a.png") are both selected and both write "<stem>.json" |
| Batch.Workers | scripts/fabricate.ts:140 | the pool starts min(concurrency, n) workers: never more than either, exactly one of the two when the concurrency is not negative, none when it is negative, and at least one iff both are positive |
| Batch.RunPool | scripts/fabricate.ts:129-142 | with at least one worker, the indices are claimed 0..n-1 once each in order, and `results[i]` is task i's value; with none, nothing runs and every slot stays empty |
| Batch.RunBatch | scripts/fabricate.ts:203-241 | the counts, the error list and the written files are the specification functions of the outcomes; success + failed is the number of files and `failed` is the number of errors |
| Batch.CountWritten | scripts/fabricate.ts:231 | the `success` count after n tasks is at most n, and equals n exactly when every one of them wrote its file |
| Batch.Failures | scripts/fabricate.ts:233-236 | the `errors` list after n tasks has at most n entries, each naming a file of the batch; FailuresAreFailedFiles states which |
| Batch.Outputs | scripts/fabricate.ts:211-230 | the Prompts folder after n tasks, each written JSON under its file's output name; OutputsAfterWrite, OutputsAfterFailure, OutputsKeepOtherName and OutputsLastWriter state what it holds |
| Batch.RunClaimed | scripts/fabricate.ts:211-237 | running the claimed tasks in claim order gives the count, the error list and the folder that the specification functions give for that many tasks, with `failed` the number of errors |
| Batch.TaskStep | scripts/fabricate.ts:211-237 | one task moves the count by one and writes its JSON under its output name when it wrote, and appends its file and message to the errors when it threw |
| Batch.OutputsCarry | scripts/fabricate.ts:211-237 | an entry of the folder survives a task that threw or wrote under another name |
| Batch.OutputsAfterWrite | scripts/fabricate.ts:211-230 | a task that wrote its file leaves its JSON under its output name |
| Batch.OutputsAfterFailure | scripts/fabricate.ts:232-236 | a task that threw writes nothing |
| Batch.Tally | scripts/fabricate.ts:231-236 | every task run is counted exactly once, as a success or as a failure |
| Batch.FailuresAreFailedFiles | scripts/fabricate.ts:233-236 | after the first n tasks, an entry is in the error list iff one of those files failed with that message |
| Batch.OutputsLastWriter | scripts/fabricate.ts:211-230 | in the sequential schedule (e.g. `--concurrency 1`), after any number of tasks, a written file that no later task overwrote (no later written file has the same output name) finds its JSON under its output name, in any batch |
| Batch.OutputsOfDistinctNames | scripts/fabricate.ts:211-230 | a successful file whose output name no other file shares has its JSON in that output file (a corollary of the last-writer lemma) |
| Batch.OutputsKeepOtherName | scripts/fabricate.ts:211-230 | a task leaves every name other than its own output name as it was |
| Wizard.StepLabel | src/types/wizard.ts:35-41 | exactly the five steps have a label |
| Wizard.StepsConsecutive | src/types/wizard.ts:25-31 | the steps are the consecutive numbers 0..4, from Reference to Output |
| Wizard.StepLabelsComplete | src/types/wizard.ts:35-41 | every step 0..4 has a label, and no two labels are the same |
| Wizard.DefaultsAreOptions | src/types/wizard.ts:102-123 | the initial f-stop, ISO and aspect ratio are in their option lists |
| Wizard.InitialStateShape | src/types/wizard.ts:102-123 | INITIAL_WIZARD_STATE (`Wizard.InitialWizardState`) is at Reference with every selection null, category "Studio", and empty notes and specs |
| Wizard.OptionListsDistinct | src/types/wizard.ts:5-17 | F_STOP_OPTIONS, ISO_OPTIONS and ASPECT_RATIO_OPTIONS (`Wizard.FStopOptions`, `Wizard.IsoOptions`, `Wizard.AspectRatioOptions`) have no duplicates |
| Validation.IsStepComplete | src/engine/validation.ts:4-24 | each step's completeness is the non-nullness of its fields; any other step number is never complete |
| Validation.CanNavigateToStep | src/engine/validation.ts:26-31 | a step can be reached iff every earlier step is complete |
| Validation.ScanFrom | src/engine/validation.ts:27-29 | the loop from i holds iff steps i up to the target are complete |
| Validation.ReferenceAlwaysNavigable | src/engine/validation.ts:27-30 | Reference (and anything before it) can always be reached |
| Validation.NavigateStepwise | src/engine/validation.ts:26-31 | step t+1 can be reached iff step t can be reached and is complete |
| Validation.NavigateMonotone | src/engine/validation.ts:26-31 | a step that can be reached makes every earlier step reachable |
| Validation.NothingBeyondOutput | src/engine/validation.ts:21-31 | no step past Output + 1 can ever be reached |
| Validation.InitialOnlyReference | src/engine/validation.ts:4-31 | in the initial state no step is complete, so only Reference can be reached |
| WizardReducer.Reduce | src/components/useWizardReducer.ts:5-78 | every action leaves every field outside the ones it writes unchanged; from a step in 0..4, every action but SET_STEP keeps the step in 0..4 |
| WizardReducer.StepMoves | src/components/useWizardReducer.ts:10-20 | NEXT_STEP gives min(step+1, 4) and PREV_STEP gives max(step-1, 0) |
| WizardReducer.StepMovesAtEnds | src/components/useWizardReducer.ts:10-20 | NEXT_STEP at Output and PREV_STEP at Reference change nothing |
| WizardReducer.SetGenreClearsArtist | src/components/useWizardReducer.ts:45-46 | SET_GENRE stores the genre and clears the artist, so ArtDirection becomes incomplete |
| WizardReducer.SetCategoryClearsScenario | src/components/useWizardReducer.ts:55-56 | SET_LIGHTING_CATEGORY stores the category, clears the scenario and the specs, so Lighting becomes incomplete |
| WizardReducer.ClearReferenceNullsBoth | src/components/useWizardReducer.ts:27-29 | CLEAR_REFERENCE nulls the image and the preview, so Reference becomes incomplete |
| WizardReducer.SettersStorePayload | src/components/useWizardReducer.ts:23-69 | each setter stores its payload in its field |
| WizardReducer.ResetIsInitial | src/components/useWizardReducer.ts:71-73 | RESET gives the initial state from any state |
| WizardReducer.SetStepUnchecked | src/components/useWizardReducer.ts:7-8 | SET_STEP sets any step, reachable or not |
| PromptBuilder.CamInfo | src/engine/prompt-builder.ts:9-11 | a falsy camera gives ""; a camera in the library gives its info and vibe joined by " \| "; a name inherited from Object.prototype ("constructor", "toString", …) without a library entry gives "undefined \| undefined"; any other name is an error naming the camera |
| PromptBuilder.LensInfoText | src/engine/prompt-builder.ts:12-14 | the same for the lens, with its info and character, including the inherited-name case |
| PromptBuilder.Interpolate | src/engine/prompt-builder.ts:37-51 | `${x}` of a string or null: the string itself, and "null" exactly for null or the text "null" |
| PromptBuilder.LocationLogic | src/engine/prompt-builder.ts:16-26 | for the Studio category the block names the artist; otherwise it is the LOCATION KEEP line |
| PromptBuilder.NotesOrEmpty | src/engine/prompt-builder.ts:51 | the notes with the `""` fallback render as they are, since the only falsy string is "" |
| PromptBuilder.PromptParts | src/engine/prompt-builder.ts:28-59 | the template has 25 pieces, opening with the role text and closing with the output keys, with the location block second and the notes second to last |
| PromptBuilder.BuildPrompt | src/engine/prompt-builder.ts:8-60 | the prompt is built iff every truthy camera and lens is a library entry or a name inherited from Object.prototype; otherwise the error names the failing lookup, the camera first |
| PromptBuilder.BuildPromptRenders | src/engine/prompt-builder.ts:28-59 | the prompt is the concatenation of the template's pieces with the selections and library texts in place |
| PromptBuilder.CameraLineInPrompt | src/engine/prompt-builder.ts:39 | the prompt contains the Body line: the camera, an arrow and the camera text |
| PromptBuilder.InheritedCameraRendersUndefined | src/engine/prompt-builder.ts:9-11 | a camera named like an Object.prototype member that the library lacks does not throw: the Body line reads "<name> -> undefined \| undefined" |
| PromptBuilder.ApertureLineInPrompt | src/engine/prompt-builder.ts:42 | the prompt contains the aperture line with the f-stop, ISO and aspect ratio |
| PromptBuilder.LightingInPrompt | src/engine/prompt-builder.ts:49-50 | the prompt contains the setup line with the scenario and the specs line with the light specs |
| PromptBuilder.LocationInPrompt | src/engine/prompt-builder.ts:16-26 | "Studio" puts the LOCATION SWITCH block with the artist's name into the prompt; any other category puts in the LOCATION KEEP line |
| PromptBuilder.PromptIgnoresUnreadFields | src/engine/prompt-builder.ts:8-60 | the prompt does not depend on the step, the reference image and preview, the genre, or the generated prompt |
| PromptBuilder.PromptPartsScenario | src/engine/prompt-builder.ts:49 | changing the scenario changes only its own piece of the template |
| LightControls.MirrorMembers | src/components/LightControls.tsx:16-17 | mirroring non-negative values gives exactly the values whose magnitude is one of them |
| LightControls.Mirror | src/components/LightControls.tsx:16-17 | `flatMap(v => v === 0 ? [0] : [-v, v])`: the result is symmetric, with -x present for every x; PanSnapsShape and TiltSnapsShape describe PAN_SNAPS and TILT_SNAPS built from it |
| LightControls.MirrorLength | src/components/LightControls.tsx:16-17 | mirroring values none of which is 0 doubles their number |
| LightControls.MirrorNoDuplicates | src/components/LightControls.tsx:16-17 | mirroring strictly ascending non-negative values gives no duplicates |
| LightControls.SortInts | src/components/LightControls.tsx:16-17 | the numeric sort is ascending and a permutation |
| LightControls.SortedNoDuplicates | src/components/LightControls.tsx:16-17 | sorting a duplicate-free list gives a strictly ascending one |
| LightControls.MirrorSorted | src/components/LightControls.tsx:16-17 | sorting the mirror of distinct values in [0, bound] that include 0 and bound gives a sign-symmetric, strictly ascending list within [-bound, bound] |
| LightControls.PanSnapsShape | src/components/LightControls.tsx:16 | PAN_SNAPS has 17 values, strictly ascending, sign-symmetric, within [-180, 180] |
| LightControls.TiltSnapsShape | src/components/LightControls.tsx:17 | TILT_SNAPS has 9 values, strictly ascending, sign-symmetric, within [-90, 90] |
| LightControls.SnapTo | src/components/LightControls.tsx:19-27 | the result is the list element at the smallest distance from the value, the earliest one on a tie |
| LightControls.EarliestNearestUnique | src/components/LightControls.tsx:22-25 | that element's position is unique |
| LightControls.SnapOfSnap | src/components/LightControls.tsx:16-27 | snapping a value already in the list returns it |
| LightControls.SnapTieGoesLow | src/components/LightControls.tsx:22-25 | on an ascending list, a tie goes to the smaller snap |
| LightControls.PanSnapInRange | src/components/LightControls.tsx:100-102 | a snapped pan lies in [-180, 180] |
| LightControls.TiltSnapInRange | src/components/LightControls.tsx:103-105 | a snapped tilt lies in [-90, 90] |
| LightControls.SideLabelRoundTrip | src/components/LightControls.tsx:29-37 | 0 is "C"; other values are the side letter, a space, the magnitude and "°"; reading a label back gives the value |
| LightControls.SideLabel | src/components/LightControls.tsx:29-37 | "C" exactly at 0; otherwise the side letter for the sign, a space, and a final "°" |
| LightControls.PanLabel | src/components/LightControls.tsx:29-32 | "C" exactly at 0, otherwise starting with L for a negative pan and R for a positive one |
| LightControls.TiltLabel | src/components/LightControls.tsx:34-37 | "C" exactly at 0, otherwise starting with D for a negative tilt and U for a positive one |
| LightControls.PanLabelInjective | src/components/LightControls.tsx:29-32 | different pans get different labels |
| LightControls.TiltLabelInjective | src/components/LightControls.tsx:34-37 | different tilts get different labels |
| LightControls.InitialPanelValid | src/components/LightControls.tsx:42-55 | the initial panel has three lights, all three active, and tab 0 selected |
| LightControls.SliceEnd | src/components/LightControls.tsx:64 | `slice(0, n)` ends within the list, at n when 0 <= n <= length |
| LightControls.LightLines | src/components/LightControls.tsx:65 | line i of the custom rig is "L<i+1>: " followed by light i's colour, power, pan and tilt |
| LightControls.LightDescription | src/components/LightControls.tsx:65 | a custom-rig line starts with the colour and a space and ends with the power, pan and tilt text |
| LightControls.LowKeyText | src/components/LightControls.tsx:60 | the low-key text starts with the darkness and the light's colour and ends with the same power, pan and tilt text as a custom-rig line |
| LightControls.BuildSpecs | src/components/LightControls.tsx:57-68 | a non-standard low-key setup gives the "Low Key Mode (" text; a non-standard custom rig with at least one active light starts with "L1: "; StandardSpecsFixed, CustomSpecsLines and OneActiveLight state the rest |
| LightControls.StandardSpecsFixed | src/components/LightControls.tsx:57-68 | the standard setups give their fixed sentences; the low-key text reads only the low-key settings, the studio text only the custom rig |
| LightControls.CustomSpecsLines | src/components/LightControls.tsx:62-67 | a custom rig joins one line per active light with " \| ", line i is numbered L<i+1>, and each line is in the text |
| LightControls.OneActiveLight | src/components/LightControls.tsx:63-66 | with one active light the text is that light's single line |
| LightControls.ApplyEdit | src/components/LightControls.tsx:75 | an edit sets its own field of the light and keeps the other three |
| LightControls.UpdateLight | src/components/LightControls.tsx:74-76 | only light idx changes, by that edit; the list keeps its length |
| LightControls.UpdateLightIdempotent | src/components/LightControls.tsx:74-76 | an index outside the list changes nothing, and repeating an edit changes nothing more |
| LightControls.EditActiveLight | src/components/LightControls.tsx:74-76 | editing a light changes only the lights and keeps a valid panel valid |
| LightControls.InactiveEditKeepsSpecs | src/components/LightControls.tsx:63-76 | editing a light that is not active does not change the spec text |
| LightControls.ChooseActiveLights | src/components/LightControls.tsx:124-127 | choosing n active lights sets the count, keeps a tab below n, moves a tab at or past n to n-1, and changes nothing else |
| LightControls.ChooseActiveLightsValid | src/components/LightControls.tsx:123-127 | choosing 1, 2 or 3 active lights keeps the panel valid |
| LightControls.SelectTab | src/components/LightControls.tsx:140-143 | selecting an active light's tab changes only the tab and keeps the panel valid |
| StepOutput.OrEmpty | src/components/StepOutput.tsx:73 | `?? ''` turns null into "" and keeps any other value |
| StepOutput.SaveConfig | src/components/StepOutput.tsx:71-84 | the five nullable selections are saved with null as "", and the six other fields are copied as they are |
| StepOutput.SaveConfigIgnoresSession | src/components/StepOutput.tsx:71-84 | the saved config does not depend on the step, the reference image and preview, or the generated prompt |
| StepOutput.SaveConfigMergesNullAndEmpty | src/components/StepOutput.tsx:73 | a null camera and an empty-string camera save to the same config |
| StepOutput.ErrorText | src/components/StepOutput.tsx:43 | an Error gives its message; any other thrown value gives "Unknown error" |
| StepOutput.GeneratedPromptCompletesOutput | src/components/StepOutput.tsx:41 | storing the answer completes Output and leaves every other step's completeness as it was |
| StepOutput.OutputPanel.constructor | src/components/StepOutput.tsx:15-17 | the step mounts with no result, not loading, and no error |
| StepOutput.OutputPanel.BeginGenerate | src/components/StepOutput.tsx:35-37 | without a reference image nothing changes; otherwise loading starts and the error is cleared |
| StepOutput.OutputPanel.FinishGenerate | src/components/StepOutput.tsx:38-46 | an answer becomes the result and is dispatched as SET_GENERATED_PROMPT; a thrown value becomes the error; loading ends either way |
| StepOutput.OutputPanel.Generate | src/components/StepOutput.tsx:32-47 | for a state whose prompt the step could render: without a reference image nothing is sent and nothing changes; otherwise the rendered prompt and the image are sent, loading ends, and on success the answer is stored and Output is complete |
| JsText.ToUpper | src/engine/providers/gemini.ts:10 | each character is upper-cased (ASCII letters), and the length is kept |
| JsText.ToUpperIdempotent | src/engine/providers/gemini.ts:10 | upper-casing twice is upper-casing once |
| JsText.ToLower | scripts/fabricate.ts:184 | each character is lower-cased (ASCII letters), and the length is kept |
| JsText.NatToStringRoundTrip | src/components/LightControls.tsx:60-65 | the decimal text of a number reads back as that number |
| JsText.IntToString | src/components/LightControls.tsx:31 | a negative number's text is "-" followed by its magnitude's digits |
| JsText.ParseInt | scripts/fabricate.ts:111 | `parseInt` gives NaN exactly when no digits follow the leading spaces and sign |
| JsText.ParseIntOfIntToString | scripts/fabricate.ts:111 | `parseInt` reads back the text of any integer |
| JsText.ParseIntOfDigits | scripts/fabricate.ts:111 | a run of decimal digits reads as its value |
| JsText.ParseIntOfMinusDigits | scripts/fabricate.ts:111 | a minus sign followed by digits reads as the negated value |
| JsText.ParseIntOfSignedDigits | scripts/fabricate.ts:111 | a text that is a minus sign and then the digits d reads as minus the value of d |
| JsText.ParseIntSkipsSpace | scripts/fabricate.ts:111 | a white space character (including the Unicode space separators and line terminators) in front of the text does not change what `parseInt` reads |
| JsText.TrimStartDropsLeadingSpace | scripts/fabricate.ts:111 | the white space skipped before the number is exactly the leading run of white space |
| JsText.LeadingDigitsLongest | scripts/fabricate.ts:111 | the digits read are a prefix of the text that no further digit follows |
| JsText.Join | src/components/LightControls.tsx:66 | joining no parts gives "", joining one part gives that part |
| JsText.PartInJoin | src/components/LightControls.tsx:66 | every part is contained in the joined text |
| JsText.PartInConcat | src/engine/prompt-builder.ts:28-59 | every piece of a template is contained in the rendered text |
| JsText.StrLtTotal | scripts/fabricate.ts:185 | any two different names are ordered one way or the other |
| JsText.StrLtTransitive | scripts/fabricate.ts:185 | the name order is transitive |
| JsText.SortStrings | scripts/fabricate.ts:185 | `sort()` gives an ascending permutation of the names |

## Left out

- Network calls are not modelled. This covers `generate` in src/engine/providers/gemini.ts, and src/engine/providers/openai.ts and anthropic.ts. The engine's answer, or the error it throws, is a parameter (`StepOutput.EngineOutcome`, `Batch.TaskOutcome`).
- StepOutput.OutputPanel.Generate: requires that the prompt can be built. When a truthy camera or lens is neither a library entry nor a name inherited from Object.prototype, `buildPrompt` throws while the step renders, so the step never shows and "Generate" cannot be clicked; the render error itself is not modelled.
- src/engine/run.ts (`runCineEngine`) is not part of this model. It is replaced by `StepOutput.EngineRequest`: the prompt and the image it is handed.
- File-system and process I/O are not modelled. This covers `readdirSync`, `readFileSync`, `writeFileSync`, `mkdirSync`, `existsSync`, `dotenv` and the console. The directory listing, the argument list and the environment are inputs. The written files are a map from output name to JSON.
- `path.resolve` and `path.join` are left out. `ParseArgs` returns the folder and config paths as given.
- Reading and parsing the config file and the library file is left out. Base64 encoding and `JSON.stringify` are left out.
- The per-task log line with its padded `[i/n]` tag is left out. So are the summary printout and `process.exit`. Each exit is a `None` or `Failure` result.
- Batch.RunPool: does not model real interleaving. JavaScript runs one task at a time, so `nextIndex++` is atomic. The model runs the claimed tasks one after another in claim order, which is one of the orders the pool allows.
- Batch.RunBatch: lists the errors in claim order and writes the files in claim order. With real concurrency both follow completion order, which depends on the network.
- Batch.OutputsLastWriter: holds in the sequential schedule only. With more than one worker, two files with the same output name can finish in either order, and the file whose write completes last wins.
- JsText.SortStrings: compares `char` values. JavaScript's `sort()` compares UTF-16 code units, which order the same way only outside the surrogate range.
- JsText.ToUpper and JsText.ToLower: cover ASCII letters only. The model does not do full Unicode case mapping.
- LightControls.SnapTo: requires a non-empty list. The source would return `undefined` on an empty one, but it only calls `snapTo` on the two constant lists.
- Slider values are treated as integers. A slider's step makes this true; floating point is not modelled.
- LightControls.UpdateLight: takes a typed edit per field (`LightEdit`). The untyped `field`/`value` pair of the source could store a number in `color` or a string in `pan`; that is not modelled.
- The React rendering is left out. This covers timers, the elapsed counter, copy and download, `URL.createObjectURL` and `URL.revokeObjectURL`. The revocations in the reducer do not affect the returned state.
- PromptBuilder.CamInfo and PromptBuilder.LensInfoText: the inherited names are the twelve members of Object.prototype in current engines (`constructor`, `__proto__`, `toString` and the rest). Extra members that an engine or a polyfill adds are not modelled. Every library entry is assumed to carry both of its text fields.
- The library's photographer and lighting-preset tables are left out, because `buildPrompt` does not read them. The library holds only cameras and lenses.
- `WIZARD_STEP_LABELS` is `Wizard.StepLabel`. The option lists are constants; values outside them are not excluded, because `batchConfigToWizardState` casts without checking.
- `VITE_PROVIDER` values that name a JavaScript object property, such as "toString", are not modelled. The model treats every unlisted name the same way.
