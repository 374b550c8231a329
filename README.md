# Product Studio — a Dafny model of its settings, prompt and session logic

Product Studio is a single-page web application. The user uploads a product
photo, picks a creative mode and a few options, and asks an image model for a
professional shot. That shot is either a studio background or a lifestyle
scene with a human avatar. This project models the application's
deterministic logic and proves properties about it:

- `types.dfy` (module `Types`): the five enumerations (`AppMode`,
  `BackgroundStyle`, `SceneType`, `AspectRatio`, `Gender`) with their string
  values, and the five-field `StudioSettings` record.
- `gemini_service.dfy` (module `GeminiService`): `generateProductImage`.
  - It compiles the settings into an instruction text.
  - It takes the payload out of the source data URL with `split(',')[1]`.
  - It labels the payload `image/png` and sends one request.
  - It scans the answer's parts in order. It returns the first inline image
    as `data:image/png;base64,…`, or fails with "No image was generated in
    the response.". A failure of the call is passed on unchanged.
  - The network call is a parameter `service: Request -> CallOutcome`. Its
    outcome is either an answer (`Response`) or a thrown `Error`.
  - The scan is a method with a loop (`GenerateProductImage`). It is proved
    equal to the specification function `Generation`, which uses the
    recursive first-match function `FirstImageData`.
- `control_panel.dfy` (module `ControlPanel`):
  - `updateSetting`, which replaces one field.
  - The choices offered for each enumeration.
  - Which selectors each mode shows.
  - The generate button's `disabled` condition.
  - The upload trigger.
- `image_workspace.dfy` (module `ImageWorkspace`): the ratio-to-class mapping,
  and the decision of what the workspace renders. The choices are the
  placeholder, or a canvas with an overlay, a picture, an export link and a
  footer.
- `app.dfy` (module `App`): the session as a class `Session`.
  - It holds the fields `sourceImage`, `generatedImage`, `isGenerating`,
    `error` and `settings`.
  - Its handlers are `Upload`, `ChangeSetting`, `Generate` and `Reset`.
  - `Generate` runs `BeginGenerate` (the guard, raising the busy flag,
    clearing the error), then the service call, then `FinishGenerate`
    (storing the outcome, lowering the busy flag). This makes the in-flight
    state visible.
- `strings.dfy` (module `Strings`) holds the JavaScript string operations the
  code relies on: `split` on one character, with `Join` (splitting undoes a
  join of separator-free fields, and joining undoes a split); ASCII
  `toLowerCase`; truthiness of a nullable string; and "contains".
  `wrappers.dfy` holds `Option` and `Result`.

JavaScript truthiness is modelled as written. `!sourceImage`, `!!sourceImage`
and `generatedImage ? … : …` treat the empty string like `null`. So
`HasSource()` means "present and non-empty", not merely "non-null".

Nothing in `handleGenerate` ties the result to the source it was computed
from. The file input is never disabled, so a new upload can arrive while a
generation runs. The result of the earlier source then lands next to the new
source. `App.UploadDuringGeneration` shows that interleaving. A reset cannot
fall into that window: the reset button sits in the footer, which is shown
only when a generated image exists and no generation runs
(`ImageWorkspace.ExportGoesWithFinishedImage`).

## Model

| member | source | states |
|---|---|---|
| `Types.ModeValue` | types.ts:2-5 | The value "PRODUCT_ONLY" belongs to the PRODUCT_ONLY case and to no other. |
| `Types.ModeValues` | types.ts:2-5 | A string is the value of some mode exactly when it is "PRODUCT_ONLY" or "PRODUCT_AVATAR", and the two values differ. |
| `Types.BackgroundStyleValue` | types.ts:7-12 | Every background style has a non-empty value, so its interpolation into the prompt is never empty. |
| `Types.SceneTypeValue` | types.ts:14-20 | Every scene type has a non-empty value. |
| `Types.AspectRatioValue` | types.ts:22-26 | Every aspect-ratio value has the ratio form with a colon. |
| `Types.GenderValue` | types.ts:28-31 | Every gender value starts with an upper-case letter, which the prompt lower-cases. |
| `Types.AspectRatioValuesExactly` | types.ts:22-26 | A string is the value of some aspect ratio exactly when it is "1:1", "16:9" or "4:3". |
| `Types.BackgroundStyleValueInjective` | types.ts:7-12 | Distinct background styles have distinct string values. |
| `Types.SceneTypeValueInjective` | types.ts:14-20 | Distinct scene types have distinct string values. |
| `Types.AspectRatioValueInjective` | types.ts:22-26 | Distinct aspect ratios have distinct string values. |
| `Types.GenderValueInjective` | types.ts:28-31 | Distinct genders have distinct string values. |
| `Strings.Truthy` | App.tsx:41 | A truthy nullable string is present, and the empty string is falsy like `null`. |
| `Strings.Split` | services/geminiService.ts:37 | `split` always yields at least one field. |
| `Strings.JoinSplit` | services/geminiService.ts:37 | Splitting the join of separator-free fields gives the same fields back, so Split and Join are mutually inverse on such fields. |
| `Strings.Lower` | services/geminiService.ts:24 | `toLowerCase` keeps the length and maps each upper-case ASCII letter to its lower-case counterpart (32 code points further on). Every other character stays unchanged, so no upper-case ASCII letter remains. |
| `Strings.SplitJoin` | services/geminiService.ts:37 | `split(',')` loses nothing: joining its fields with the separator gives back the input, and no field contains the separator. |
| `GeminiService.BuildPrompt` | services/geminiService.ts:13-28 | The prompt is a function of the settings alone and is never empty. |
| `GeminiService.LowerGenderValue` | services/geminiService.ts:24 | `toLowerCase` of the gender values gives "male" and "female". |
| `GeminiService.ProductOnlyPrompt` | services/geminiService.ts:14-20 | In PRODUCT_ONLY mode the prompt contains the background style's value and does not change when the scene or the gender changes. |
| `GeminiService.AvatarPrompt` | services/geminiService.ts:21-27 | In the other mode the prompt contains the scene's value and the lower-cased gender, and does not change when the background style changes. |
| `GeminiService.PromptLengthSeparatesModes` | services/geminiService.ts:13-28 | Every PRODUCT_ONLY prompt is shorter than 400 characters and every other prompt is longer, so the two templates never produce the same text. |
| `GeminiService.PromptIdentifiesChoices` | services/geminiService.ts:13-28 | Two settings with the same prompt have the same mode and agree on every field that mode uses. So the prompt identifies the chosen values. |
| `GeminiService.Payload` | services/geminiService.ts:37 | `split(',')[1]` is undefined exactly when the data URL has no comma, and a payload never contains a comma. |
| `GeminiService.PayloadBetweenFirstCommas` | services/geminiService.ts:37 | Take a comma-free prefix, a comma, a comma-free text, then the end or another comma. The payload is exactly that text, passed through without decoding. |
| `GeminiService.PayloadIsSecondField` | services/geminiService.ts:37 | Conversely, for a data URL with a comma, the payload is the text between the first comma and the next comma or the end. |
| `GeminiService.ResultUrl` | services/geminiService.ts:53 | Every returned data URL starts with "data:image/png;base64,". |
| `GeminiService.ResultUrlRoundTrip` | services/geminiService.ts:37-53 | Extracting the payload (line 37) from the data URL built at line 53 gives back image data that has no comma. |
| `GeminiService.BuildRequest` | services/geminiService.ts:37-46 | The request carries the source's payload (`Payload`, present exactly when the source has a comma), the prompt `BuildPrompt(settings)` (never empty), and the settings' aspect-ratio value. It is always labelled "image/png". So the prompt properties above hold for what is sent. |
| `GeminiService.RequestIgnoresDeclaredType` | services/geminiService.ts:37-46 | Two sources with the same payload and any declared types give the same request. It carries the payload untouched, the MIME type "image/png" and the settings' ratio value. |
| `GeminiService.JpegSourceIsRelabelled` | services/geminiService.ts:37-38 | The source "data:image/jpeg;base64,XYZ==" is sent as payload "XYZ==" labelled "image/png". |
| `GeminiService.ResponseParts` | services/geminiService.ts:51 | The parts are those of the first candidate's content whenever the candidate, its content and its parts are present. Otherwise the list is empty. Any non-empty result is exactly that content's `parts`. |
| `GeminiService.FirstImageData` | services/geminiService.ts:51-55 | Any image data found comes from some part that has inline data. |
| `GeminiService.FirstImageWins` | services/geminiService.ts:51-55 | If part k is the first part with inline data, the result is part k's data. |
| `GeminiService.NoImageIff` | services/geminiService.ts:51-57 | There is no image exactly when no part has inline data. |
| `GeminiService.LaterPartsIgnored` | services/geminiService.ts:51-55 | Once a prefix of the parts holds an image, appending more parts does not change the result. |
| `GeminiService.GenerateProductImage` | services/geminiService.ts:30-61 | The loop over the parts returns exactly `Generation` of the data URL, the settings and the service: the thrown error, the first inline image as a PNG data URL, or the no-image error. |
| `GeminiService.Generation` | services/geminiService.ts:30-61 | Every success is a data URL with the "data:image/png;base64," prefix. Every failure is either the no-image error or exactly the error the call threw. |
| `GeminiService.GenerationRethrows` | services/geminiService.ts:58-61 | When the call throws, the same error is the result. |
| `GeminiService.GenerationWithoutImage` | services/geminiService.ts:51-57 | An answer with no inline data fails with "No image was generated in the response.". This includes an answer with no candidates, no content or no parts. |
| `GeminiService.GenerationReturnsFirstImage` | services/geminiService.ts:51-55 | An answer whose first image part is part k yields "data:image/png;base64," followed by that part's data. |
| `GeminiService.SingleImagePartExample` | services/geminiService.ts:51-53 | A single part with inline data "ABC123" gives "data:image/png;base64,ABC123". |
| `ControlPanel.UpdateSetting` | components/ControlPanel.tsx:29-31 | The named field takes the given value and no other field differs from the old record. |
| `ControlPanel.UpdateSettingIdempotent` | components/ControlPanel.tsx:29-31 | Setting a field to its current value changes nothing, and repeating an update changes nothing further. |
| `ControlPanel.UpdatesOfDifferentKeysCommute` | components/ControlPanel.tsx:29-31 | Updates of two different fields can be applied in either order. |
| `ControlPanel.AspectRatioChoices` | components/ControlPanel.tsx:87 | The ratio buttons list no value twice. |
| `ControlPanel.BackgroundStyleChoices` | components/ControlPanel.tsx:104 | The style buttons list no value twice. |
| `ControlPanel.SceneTypeChoices` | components/ControlPanel.tsx:120 | The scene buttons list no value twice. |
| `ControlPanel.GenderChoices` | components/ControlPanel.tsx:134 | The gender buttons list no value twice. |
| `ControlPanel.EveryValueIsOffered` | components/ControlPanel.tsx:87-134 | Every aspect ratio, background style, scene type and gender is offered as a choice. |
| `ControlPanel.VisibleSelectors` | components/ControlPanel.tsx:84-146 | The ratio selector is always shown. Exactly one of the style selector and the scene selector is shown, and the gender selector goes with the scene selector. |
| `ControlPanel.VisibleSelectorsAreWhatThePromptReads` | components/ControlPanel.tsx:100-146 | The style selector is shown only in PRODUCT_ONLY mode, and the scene and gender selectors only otherwise. Each is shown exactly when changing that setting changes the prompt. |
| `ControlPanel.GenerateDisabled` | components/ControlPanel.tsx:155 | The button is disabled whenever a generation runs, enabled when idle with a source, and an enabled button implies there is a source. |
| `ControlPanel.ChosenFile` | components/ControlPanel.tsx:61 | An upload starts exactly when a file list is present and non-empty, and it uploads the first file. |
| `ImageWorkspace.AspectRatioClass` | components/ImageWorkspace.tsx:20-27 | The 16:9 and 4:3 classes are "aspect-[…]" around the ratio's own value with ':' written as '/'. The 1:1 ratio, the default case, gets "aspect-square", and it is the only ratio that does. |
| `ImageWorkspace.AspectRatioClassInjective` | components/ImageWorkspace.tsx:20-27 | Different ratios get different canvas classes. |
| `ImageWorkspace.Render` | components/ImageWorkspace.tsx:31-118 | The overlay is up exactly while a generation runs. Whenever there is a generated image, the canvas shows it. The source preview appears only without a generated image and shows the source itself. The placeholder appears only when idle with neither image, and a canvas is never blank, so the placeholder appears exactly when there is nothing to show. Both views use the ratio's class. |
| `ImageWorkspace.BlankCanvasOnlyWhileGenerating` | components/ImageWorkspace.tsx:31-76 | The canvas shows no picture exactly while a generation runs with neither image present. |
| `ImageWorkspace.GeneratedImageHidesSource` | components/ImageWorkspace.tsx:59-76 | When a generated image exists, the canvas shows it and the source image has no effect on what is rendered. So the generated image takes precedence over the source preview. |
| `ImageWorkspace.ExportGoesWithFinishedImage` | components/ImageWorkspace.tsx:78-101 | The export link and the footer with reset appear together, exactly when a generated image exists and no generation runs. The link points at the shown image, downloads as "studio-shot.png", and never appears under the overlay. |
| `App.ErrorText` | App.tsx:52-53 | The error text is the error's message when it is not empty, and "Failed to generate image. Please try again." otherwise. It is never empty, so the error box always appears. |
| `App.Session.HasSource` | App.tsx:105 | Having a source implies the source slot is non-null, and that the workspace shows a canvas rather than the placeholder. |
| `App.Session.ErrorShown` | App.tsx:108-112 | The error box is shown only when the error slot is non-null, and it is shown for the missing-source message. |
| `App.Session.constructor` | App.tsx:16-28 | The initial settings are PRODUCT_ONLY, White Studio, Studio, 1:1 and Female. There is no source, no result, no error and no generation running, so the placeholder is shown and the button is disabled. |
| `App.Session.Upload` | App.tsx:32-36 | The source becomes the read data URL, and the result and error are cleared. The settings and the busy flag are unchanged, and a non-empty source is previewed. |
| `App.Session.ChangeSetting` | components/ControlPanel.tsx:29-31 | The session's settings become `UpdateSetting` of the old ones. Nothing else in the session changes. |
| `App.Session.BeginGenerate` | App.tsx:40-47 | Without a truthy source, the error becomes "Please upload a product image first." and nothing else changes. Otherwise the busy flag rises and the error clears; the busy flag was never consulted. The button (ControlPanel.tsx:155) is then disabled and the overlay is shown. |
| `App.Session.FinishGenerate` | App.tsx:50-56 | A success stores the result and a failure stores the error text. The busy flag is false afterwards in both cases, and the button is enabled exactly when there is a source. |
| `App.Session.Generate` | App.tsx:40-57 | Without a source, only the error changes, to the missing-source message. With a source, the session ends not generating. A success shows the generated image with its export link and footer. A failure keeps the old image and shows the error text. |
| `App.Session.Reset` | App.tsx:121-125 | The source, the result and the error are cleared, and the settings and busy flag stay. When idle the placeholder is shown; the button is disabled. |
| `App.UploadDuringGeneration` | App.tsx:30-57 | Upload, start a generation, upload again, then finish. The job captured at the start carries the first source. The new source stays. The outcome computed from the first source is stored: its image with no error, or no image (the second upload cleared it) with the error text. The busy flag ends lowered. |

## Left out

- The image-model client, the model name and the API key (services/geminiService.ts:9, 31-49). The call is the parameter `service`, and only the request it receives is modelled.
- `console.error` logging (services/geminiService.ts:59).
- Promise scheduling, `await`, `finally` and the `FileReader` callback. Each handler is one sequential step. The read result is the string given to `Upload`. `Generate` is split into `BeginGenerate` and `FinishGenerate` only so that the in-flight state can be stated.
- Base64 encoding and decoding: the code never decodes anything; it only slices strings.
- `GeminiService.BuildPrompt`: the exact whitespace of the template literals is not kept. The prompt is fixed fragments joined with single spaces around the interpolated values. Properties are stated as "contains" and "depends only on".
- `Strings.Lower`: `toLowerCase` is modelled for ASCII letters only. The only text it is applied to is "Male" and "Female".
- `App.ErrorText`: a thrown error whose `message` is missing or falsy is represented by an error with an empty message, and gets the fallback text. A truthy message that is not a string (stored and shown as is) and a thrown `null` or `undefined` (where reading `err.message` itself throws inside the catch, so the error slot is never set) are not modelled.
- `GeminiService.Blob`: an inline part whose `data` field is missing would be rendered as "undefined" by the template literal. The model always gives inline data a string.
- JSX markup, Tailwind classes other than the three aspect classes, SVGs, animations, the onboarding screen and its `hasStarted` toggle (App.tsx:59-84), and the ratio label in the footer.
