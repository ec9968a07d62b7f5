# Fine-art print description generator and chat page, modelled in Dafny

This project models two Streamlit applications.

The first is the fine-art print description generator
(`fine_art_description_generator/`). Its page has five steps:
- The user uploads a picture of a print.
- The picture is analysed once; the analysis may pre-fill the details form.
- The user fills in the form.
- On submit a product description is composed. The composer tries `gpt-4`, then
  `gpt-3.5-turbo`, then falls back to a fixed demo template.
- The description is previewed, can be edited, and is offered as a text download.

All of this state lives in Streamlit's per-session store. The second application
is the stand-alone chat page `streamlit_app.py`: a model list, an optional
uploaded file given to the model as a system message, a streamed reply, and
the chat history.

Modules, one per source file, plus three shared ones:

| module | file | what it holds |
|---|---|---|
| `Wrappers` | – | `Option` and `Result` |
| `Text` | – | the Python string operations the code uses (`strip`, `lower`, `capitalize`, `replace`, `split`, `join`, `in`, `format(n, '02x')`), each with its laws |
| `PyValue` | – | the Python values that pass through session state and the analysis dicts: truthiness, `dict.get`, `str()`/`repr()`, and the exceptions raised on the modelled paths |
| `SessionState` | `utils/session_state.py` | the session store as a class `Session` with a `state: map<Name, Value>` field; `initialize_session_state` and `reset_app` as methods |
| `DescriptionForm` | `components/description_form.py` | the option lists, the default-index rule of the select boxes, the widget domains, and `RenderForm`, which writes the ten fields back |
| `DescriptionPreview` | `components/description_preview.py` | the edit write-back, the download and its file name, and the reset of an empty description |
| `ImageUpload` | `components/image_upload.py` | storing a new upload, dropping the old analysis, and the one-time image check |
| `ImageAnalyzer` | `utils/image_analyzer.py` | `to_hex` and its inverse, the colour table, the vision prompt, the error paths of `analyze_image`, and the demo record |
| `DescriptionGenerator` | `utils/description_generator.py` | the analysis section (a loop proved against its specification), the prompt, the model fallback chain, and the demo template |
| `Home` | `pages/home.py` | `show` as a method on the session, proved against a function of the old state; the page-level properties |
| `ChatApp` | `streamlit_app.py` | the model list (filter, reverse sort, fallback), a class `ChatSession` with the history and the file content, the API message list, and the streamed reply |

Session names are a datatype `SessionState.Name`: one constructor per key the
application uses, and `Other` for any other string. The predicate
`DescriptionForm.Typed` says what the widgets need of the store to render. It
requires:
- text fields are strings;
- the tone is one of the five tones;
- the length lies on the slider grid 50..300 in steps of 25.

Every step of the page is proved to preserve `Typed`, so `Home.Show` can run again
and again on the same session.

Remote services are parameters. These are the chat completions, the vision call,
`models.list`, the streamed completion and `json.loads`. The page sees the analyzer
and the composer through a `Home.Services` value. Their own models are
`ImageAnalyzer.AnalyzeImage` and `DescriptionGenerator.Compose`.
`Home.ComposeMeetsRequirement` connects `Compose` to the one property the page
lemmas ask of the composer.

Where the code departs from what its docstrings, comments and names promise, the model follows the code:
- **A failed analysis is stored as `{}`.** `analyze_image` raises on an
  unreadable image, on a failed vision call, and on undecodable JSON.
  `pages/home.py` then stores an empty dict. Nothing falls back to the canned
  record (`Home.UnreadableImageStoresEmptyAnalysis`).
- **A new upload keeps the description.** It drops only `image_analysis`. The
  generated description stays (`ImageUpload.NewUploadResetsAnalysis`).
- **Centroid channels are truncated** (`astype(int)`), not rounded. The model
  takes the integer centroids as given.
- **The composer can raise.** This happens when the demo template's
  `.lower()` meets a non-string. The page then stores its retry message, so
  the stored description is still never empty (`Home.GenerationWritesDescription`).
- **The analyzer and the page use different keys.** The analyzer asks the
  vision model for `style`, `medium`, … but the page pre-fills from
  `detected_style`, `detected_medium`, …. An analyzer record therefore
  pre-fills nothing, yet the run still ends with a rerun
  (`Home.AnalyzerRecordFillsNothing`).
- **The chat page sorts model ids by code point**, in reverse; it does not sort
  by release date. Its select box always starts at index 0
  (`ChatApp.SelectedIsGreatest`).

The chat page reads `st.session_state.file_content` without a guard. As
written, it would raise on a session's first run if that run carried an
uploaded file with "Include file content" unchecked
(`ChatApp.ExcludedFileOnFirstRunCrashes`). Streamlit's widget defaults rule
that run out: the checkbox is created only once a file is present, and a new
checkbox returns its default, checked. A first run therefore either has no
file or includes it, and `ChatApp.SyncedFileIsSet` proves that either way the
content is set and no turn can raise.

## Model

| member | source | states |
|---|---|---|
| SessionState.DefaultState | fine_art_description_generator/utils/session_state.py:8-39 | the initial store holds `current_description` = "", `uploaded_image` = None, `image_analysis` = None and the `reset_app` hook |
| SessionState.EntriesMap | fine_art_description_generator/utils/session_state.py:19-30 | the map built from the defaults has exactly the listed names as keys |
| SessionState.KeyInjective | fine_art_description_generator/utils/session_state.py:8-39 | two canonical session names with the same Python name are the same name |
| SessionState.Session.Initialize | fine_art_description_generator/utils/session_state.py:3-39 | the store becomes the fourteen defaults filled in source order, each only when missing, which equals the defaults placed underneath the old store |
| SessionState.Initialized | fine_art_description_generator/utils/session_state.py:3-39 | `initialize_session_state` as a function of the store: the defaults placed underneath it, which `FillMissingIsUnion` shows is the source's fill in order |
| SessionState.FillMissing | fine_art_description_generator/utils/session_state.py:33-35 | the `if field not in` loop over a list of defaults: each name is set only when it is missing by its turn; its laws are `FillMissingStep`, `FillMissingAppend` and `FillMissingIsUnion` |
| SessionState.Session.ResetApp | fine_art_description_generator/utils/session_state.py:41-57 | with nothing kept, every name is deleted and the store is re-initialized: the result is the default store whatever was there before |
| SessionState.FillMissingStep | fine_art_description_generator/utils/session_state.py:33-35 | one loop iteration sets its field exactly when the field is missing |
| SessionState.FillMissingAppend | fine_art_description_generator/utils/session_state.py:8-39 | filling the three groups one after another is filling their concatenation |
| SessionState.FillMissingIsUnion | fine_art_description_generator/utils/session_state.py:32-35 | with distinct names, filling in order equals putting the defaults underneath the store |
| SessionState.InitializeKeepsExisting | fine_art_description_generator/utils/session_state.py:8-39 | initialization never overwrites a name that is present |
| SessionState.InitializeFillsDefaults | fine_art_description_generator/utils/session_state.py:8-39 | afterwards the names are the defaults' names plus the old ones, and every missing name holds its default |
| SessionState.InitializeIdempotent | fine_art_description_generator/utils/session_state.py:3-39 | initializing twice is initializing once |
| SessionState.FormFieldDefault | fine_art_description_generator/utils/session_state.py:19-30 | each of the ten form fields holds its listed default in the initial store |
| SessionState.FormFieldsInAllDefaults | fine_art_description_generator/utils/session_state.py:19-35 | the ten form fields are filled in their listed order, after the three state names |
| SessionState.AllDefaultsDistinct | fine_art_description_generator/utils/session_state.py:8-39 | the fourteen initialized names are pairwise distinct |
| DescriptionForm.DefaultsTyped | fine_art_description_generator/utils/session_state.py:19-30 | the defaults fit the widgets: text fields are strings, the tone is a tone option, 150 is on the length grid |
| DescriptionForm.InitializeKeepsTyped | fine_art_description_generator/utils/session_state.py:3-39 | initialization keeps a typed store typed |
| DescriptionForm.IndexOf | fine_art_description_generator/components/description_form.py:31-32 | `options.index(x)` is the first position holding `x` |
| DescriptionForm.DefaultIndex | fine_art_description_generator/components/description_form.py:29-32 | the select box opens at the stored value's first position when it is a string among the options, and at 0 otherwise |
| DescriptionForm.ShownTone | fine_art_description_generator/components/description_form.py:73-78 | the tone slider opens at one of the five tones |
| DescriptionForm.ShownLength | fine_art_description_generator/components/description_form.py:80-86 | the length slider opens at a value between 50 and 300 on steps of 25 |
| DescriptionForm.SelectWidget | fine_art_description_generator/components/description_form.py:34-38 | a select box returns one of its options, and the one at its index when left alone |
| DescriptionForm.ToneWidget | fine_art_description_generator/components/description_form.py:74-78 | the tone slider returns a tone option |
| DescriptionForm.LengthWidget | fine_art_description_generator/components/description_form.py:80-86 | the length slider returns a value on its grid |
| DescriptionForm.ReadWidgets | fine_art_description_generator/components/description_form.py:11-100 | the widget values: style and medium are options of their lists, the tone is a tone, the length is on the grid |
| DescriptionForm.RenderForm | fine_art_description_generator/components/description_form.py:3-105 | the store becomes the old store with the ten widget values written back in form order; the result is the submit button's state |
| DescriptionForm.WriteBack | fine_art_description_generator/components/description_form.py:11-100 | the ten session assignments of the form, in form order; `WriteBackWrites` and `WriteBackIdle` state what they leave behind |
| DescriptionForm.FormState | fine_art_description_generator/components/description_form.py:3-105 | the store after the form: the widgets read from the old store and written back; characterized by `FormKeepsTyped`, `FormValuesInDomains`, `FormUntouchedKeepsValues` and `FormWritesOnlyItsFields` |
| DescriptionForm.WriteBackWrites | fine_art_description_generator/components/description_form.py:11-100 | after the form the ten fields hold the widget values and every other name is unchanged |
| DescriptionForm.WriteBackIdle | fine_art_description_generator/components/description_form.py:11-100 | writing back what the store already holds changes nothing |
| DescriptionForm.WriteBackKeepsTyped | fine_art_description_generator/components/description_form.py:11-100 | writing values from the widget domains keeps the store typed |
| DescriptionForm.FormKeepsTyped | fine_art_description_generator/components/description_form.py:3-105 | rendering the form keeps the store typed |
| DescriptionForm.FormValuesInDomains | fine_art_description_generator/components/description_form.py:24-86 | after the form, style and medium are options of their lists, the tone is a tone and the length is on its grid |
| DescriptionForm.FormUntouchedKeepsValues | fine_art_description_generator/components/description_form.py:11-86 | the six untouched text fields and the two sliders keep the stored value, or take "", "Professional" and 150 when it was absent |
| DescriptionForm.FormUntouchedKeepsSelection | fine_art_description_generator/components/description_form.py:29-54 | an untouched select box keeps a stored value that is an option, and otherwise falls back to "Abstract" / "Giclée Print" |
| DescriptionForm.SelectUntouched | fine_art_description_generator/components/description_form.py:30-38 | an untouched select box returns the stored option, or the first option |
| DescriptionForm.FormWritesOnlyItsFields | fine_art_description_generator/components/description_form.py:11-100 | the form changes no name outside its ten fields |
| DescriptionForm.ReadBackUntouched | fine_art_description_generator/components/description_form.py:11-100 | an untouched form reads back exactly the values the store holds |
| DescriptionForm.FormUntouchedIdempotent | fine_art_description_generator/components/description_form.py:3-105 | rendering an untouched form a second time changes nothing |
| DescriptionForm.FreshFormShowsDefaults | fine_art_description_generator/components/description_form.py:11-100 | on a fresh store the form shows empty text, the first style and medium, "Professional" and 150 |
| DescriptionPreview.DownloadFileName | fine_art_description_generator/components/description_preview.py:39 | the file name is the title with each space turned into `_` and each character lower-cased, position by position, followed by `_description.txt`; it holds no space and no upper-case ASCII letter |
| DescriptionPreview.UntitledFileName | fine_art_description_generator/components/description_preview.py:39 | without a title the file is `art_print_description.txt` |
| DescriptionPreview.EmptyTitleFileName | fine_art_description_generator/components/description_preview.py:39 | an empty title gives the bare `_description.txt` |
| DescriptionPreview.PlainTitleFileName | fine_art_description_generator/components/description_preview.py:39 | a title with no space and no capital is used as it is |
| DescriptionPreview.Preview | fine_art_description_generator/components/description_preview.py:3-54 | with a truthy description, the edit is written back when it differs and the edited text is offered for download; otherwise the description becomes "" and nothing is offered |
| DescriptionPreview.PreviewState | fine_art_description_generator/components/description_preview.py:8-54 | with a truthy description the edit replaces it only when it differs; otherwise "" is stored; characterized by `PreviewWritesDescription` and `UntouchedPreviewKeepsStore` |
| DescriptionPreview.PreviewDownload | fine_art_description_generator/components/description_preview.py:8-41 | a download exactly when the description is truthy, carrying the edited text under the file name built from the title; `DownloadMatchesStore` ties it to the store |
| DescriptionPreview.PreviewWritesDescription | fine_art_description_generator/components/description_preview.py:8-54 | afterwards the description is the edit (or "") and no other name changes |
| DescriptionPreview.DownloadMatchesStore | fine_art_description_generator/components/description_preview.py:22-41 | a download is offered exactly when there is a description, and it carries what the store holds after the edit |
| DescriptionPreview.UntouchedPreviewKeepsStore | fine_art_description_generator/components/description_preview.py:14-23 | an untouched preview of a description changes nothing |
| DescriptionPreview.ClearedDescriptionDisappears | fine_art_description_generator/components/description_preview.py:8-54 | clearing the text still offers the empty text once; on the next run nothing is offered and the store stays as it is |
| DescriptionPreview.PreviewKeepsTyped | fine_art_description_generator/components/description_preview.py:8-54 | the preview keeps the store typed |
| ImageUpload.UploadResult | fine_art_description_generator/components/image_upload.py:19-66 | the step returns either the uploaded file or None |
| ImageUpload.IsNewUpload | fine_art_description_generator/components/image_upload.py:22 | a file is new when no file is stored or the stored one has another file id |
| ImageUpload.UploadState | fine_art_description_generator/components/image_upload.py:19-57 | a new file drops `image_analysis` and is stored, image or not; any other upload leaves the store as it is (`NewUploadResetsAnalysis`, `SameUploadKeepsStore`, `NoUploadNoChange`) |
| ImageUpload.Upload | fine_art_description_generator/components/image_upload.py:5-66 | a file new to the session (by file id) replaces the stored one and drops the analysis; a new file that is not an image gives None |
| ImageUpload.NewUploadResetsAnalysis | fine_art_description_generator/components/image_upload.py:22-53 | a new file is stored and `image_analysis` removed, image or not; nothing else changes; it is returned exactly when it is an image |
| ImageUpload.SameUploadKeepsStore | fine_art_description_generator/components/image_upload.py:22-57 | the stored file uploaded again changes nothing and is returned |
| ImageUpload.NoUploadNoChange | fine_art_description_generator/components/image_upload.py:62-66 | without a file nothing changes and nothing is returned |
| ImageUpload.RejectedFileReturnedOnRerun | fine_art_description_generator/components/image_upload.py:22-57 | a non-image is rejected once, and on the next run it is returned, because the check only runs for new files |
| ImageUpload.UploadKeepsTyped | fine_art_description_generator/components/image_upload.py:19-57 | the upload keeps the store typed |
| ImageAnalyzer.ToHexOfByteColor | fine_art_description_generator/utils/image_analyzer.py:58-59 | `to_hex` of a byte colour is `#` and six lower-case hex digits, two per channel, high nibble first |
| ImageAnalyzer.ToHex | fine_art_description_generator/utils/image_analyzer.py:58-59 | `#` then each channel through `{:02x}`; `ToHexOfByteColor`, `ToHexRoundTrip` and `ToHexInjective` state its digits, inverse and injectivity |
| ImageAnalyzer.ParseHexColor | fine_art_description_generator/utils/image_analyzer.py:58-59 | reading a `#rrggbb` string back yields byte channels |
| ImageAnalyzer.ToHexRoundTrip | fine_art_description_generator/utils/image_analyzer.py:58-59 | reading `to_hex(c)` back gives `c` for every byte colour |
| ImageAnalyzer.ToHexInjective | fine_art_description_generator/utils/image_analyzer.py:58-61 | different byte colours get different hex strings |
| ImageAnalyzer.ToHexIsOneLine | fine_art_description_generator/utils/image_analyzer.py:58-59 | a hex string holds no newline |
| ImageAnalyzer.ExtractDominantColors | fine_art_description_generator/utils/image_analyzer.py:56-61 | one `{"hex": to_hex(c)}` per centroid, in centroid order |
| ImageAnalyzer.Rows | fine_art_description_generator/utils/image_analyzer.py:68 | one table row per colour, in order |
| ImageAnalyzer.ColorBlocksMd | fine_art_description_generator/utils/image_analyzer.py:64-70 | the header, a newline, then the rows joined by newlines; `ColorBlocksLines` shows its lines are the header and one row per colour |
| ImageAnalyzer.RowIsOneLine | fine_art_description_generator/utils/image_analyzer.py:68 | a row of a one-line hex is one line |
| ImageAnalyzer.ColorBlocksLines | fine_art_description_generator/utils/image_analyzer.py:64-70 | split into lines, the table is its two header lines and then exactly one row per colour in order (one empty line for no colours) |
| ImageAnalyzer.RowsSplitBack | fine_art_description_generator/utils/image_analyzer.py:68-70 | the joined rows split back into the rows |
| ImageAnalyzer.SplitBelowHeader | fine_art_description_generator/utils/image_analyzer.py:69-70 | the header contributes exactly its two lines |
| ImageAnalyzer.HeaderLinesAreOneLine | fine_art_description_generator/utils/image_analyzer.py:69 | neither header line holds a newline |
| ImageAnalyzer.ColorBlocksEndWithBar | fine_art_description_generator/utils/image_analyzer.py:68-70 | a table with colours ends with the closing `|` of its last row |
| ImageAnalyzer.VisionPromptEndsWithTable | fine_art_description_generator/utils/image_analyzer.py:102-127 | when the table ends visibly, the stripped prompt is the instructions followed by the whole table |
| ImageAnalyzer.VisionPrompt | fine_art_description_generator/utils/image_analyzer.py:102-127 | the instructions and the colour table inside the newline-framed f-string, stripped; `VisionPromptEndsWithTable` shows only the framing is cut |
| ImageAnalyzer.VisionInstructionsStart | fine_art_description_generator/utils/image_analyzer.py:103 | the instructions start with a visible character, so the strip cuts none of them |
| ImageAnalyzer.ReadVisionReply | fine_art_description_generator/utils/image_analyzer.py:147-160 | a failed call raises its error; None content raises TypeError; undecodable text raises the JSON RuntimeError; decodable text is returned unchecked |
| ImageAnalyzer.AnalyzeImage | fine_art_description_generator/utils/image_analyzer.py:84-160 | an unreadable image raises "Could not load image" and sends no prompt; otherwise the prompt carries the colour table and the reply is read as above |
| ImageAnalyzer.AnalyzeUnreadableSkipsVision | fine_art_description_generator/utils/image_analyzer.py:89-94 | whatever the services do, an unreadable image never reaches them |
| ImageAnalyzer.AnalyzeSendsColorTable | fine_art_description_generator/utils/image_analyzer.py:97-127 | the prompt sent is the fixed instructions followed by the full colour table of the centroids |
| ImageAnalyzer.DemoAnalyzeImage | fine_art_description_generator/utils/image_analyzer.py:167-180 | the demo record has the six analyzer keys in order, three named colours and a signature |
| ImageAnalyzer.DemoRecordShape | fine_art_description_generator/utils/image_analyzer.py:169-180 | the record's keys are the analyzer's six; its colours and signature are as listed |
| ImageAnalyzer.DemoRecordKeys | fine_art_description_generator/utils/image_analyzer.py:169-180 | the record's keys in order are the six keys the vision prompt asks for |
| ImageAnalyzer.DemoRecordLookups | fine_art_description_generator/utils/image_analyzer.py:172-179 | looking up `dominant_colors` and `has_signature` gives the listed values |
| ImageAnalyzer.DemoColorsShape | fine_art_description_generator/utils/image_analyzer.py:172-176 | three colours, each a dict with keys `name`, `hex` |
| DescriptionGenerator.AnalysisText | fine_art_description_generator/utils/description_generator.py:34-39 | the section is empty exactly when the image data is not a non-empty dict; otherwise it starts with the header |
| DescriptionGenerator.BuildAnalysisText | fine_art_description_generator/utils/description_generator.py:34-39 | the loop builds exactly the section |
| DescriptionGenerator.AnalysisLinesStep | fine_art_description_generator/utils/description_generator.py:37-39 | one more entry adds its line exactly when it is shown |
| DescriptionGenerator.ShownEntries | fine_art_description_generator/utils/description_generator.py:38 | only entries that are not `error`, not private and truthy are kept |
| DescriptionGenerator.AnalysisLinesAreShownEntries | fine_art_description_generator/utils/description_generator.py:37-39 | the section's lines are exactly the shown entries' lines, one each, in dict order |
| DescriptionGenerator.FalsyEntryDropped | fine_art_description_generator/utils/description_generator.py:38 | a falsy value never adds a line |
| DescriptionGenerator.LabelIgnoresDetectedPrefix | fine_art_description_generator/utils/description_generator.py:39 | a `detected_` prefix does not show in the label |
| DescriptionGenerator.Label | fine_art_description_generator/utils/description_generator.py:39 | every `detected_` removed from the key, then capitalized (`LabelIgnoresDetectedPrefix`, `LabelOfPlainKey`) |
| DescriptionGenerator.EntryLine | fine_art_description_generator/utils/description_generator.py:39 | `- `, the label, `: `, `str(value)` and a newline; `AnalysisLinesAreShownEntries` shows one such line per shown entry |
| DescriptionGenerator.LabelOfPlainKey | fine_art_description_generator/utils/description_generator.py:39 | a key without `detected_` is only capitalized |
| DescriptionGenerator.Prompt | fine_art_description_generator/utils/description_generator.py:42-69 | the prompt is built exactly when the tone is a string (else AttributeError) and contains the analysis section and the tone line |
| DescriptionGenerator.DemoPick | fine_art_description_generator/utils/description_generator.py:118-120 | falsy image data or a missing key gives the default; a truthy non-dict raises; a present key gives its value |
| DescriptionGenerator.DemoGenerateDescription | fine_art_description_generator/utils/description_generator.py:114-130 | the template succeeds exactly when every `.lower()` is on a string, and its text is never empty |
| DescriptionGenerator.DemoWordDefault | fine_art_description_generator/utils/description_generator.py:118-120 | without the key the template uses its own word |
| DescriptionGenerator.DefaultWordsLowercase | fine_art_description_generator/utils/description_generator.py:118-125 | the three default words are already lower case |
| DescriptionGenerator.DemoMentions | fine_art_description_generator/utils/description_generator.py:122-130 | the text quotes the title with artist and year, and contains the lower-cased style and medium, the dimensions, the three picked words and the details |
| DescriptionGenerator.TemplateMentions | fine_art_description_generator/utils/description_generator.py:122-130 | each rendered placeholder appears in the template text |
| DescriptionGenerator.DemoTemplate | fine_art_description_generator/utils/description_generator.py:122-130 | the demo f-string with every placeholder rendered; `TemplateMentions` shows each placeholder appears |
| DescriptionGenerator.GenerateDescription | fine_art_description_generator/utils/description_generator.py:12-110 | the imperative composer returns the result and the models called that the functional chain gives |
| DescriptionGenerator.Compose | fine_art_description_generator/utils/description_generator.py:12-110 | `generate_description`: the chain over the prompt with its analysis section and the demo description; `GenerateDescription` is proved equal to it |
| DescriptionGenerator.Chain | fine_art_description_generator/utils/description_generator.py:71-110 | the nested try/except: no call when the prompt raised, gpt-4, then gpt-3.5-turbo, then the demo; characterized by `ChainModelOrder`, `ChainReturnsStrippedReply` and `ChainFallsBackToDemo` |
| DescriptionGenerator.RunChain | fine_art_description_generator/utils/description_generator.py:71-102 | the try/except chain, one call at a time, agrees with the chain function |
| DescriptionGenerator.ChainModelOrder | fine_art_description_generator/utils/description_generator.py:72-99 | the models asked are a prefix of gpt-4, gpt-3.5-turbo; none when the prompt failed; gpt-3.5-turbo exactly when gpt-4 failed |
| DescriptionGenerator.ChainReturnsStrippedReply | fine_art_description_generator/utils/description_generator.py:102 | a reply with content from the last model asked is returned stripped |
| DescriptionGenerator.ChainFallsBackToDemo | fine_art_description_generator/utils/description_generator.py:96-110 | without content from any model the result is the demo description; an error comes only from the demo |
| DescriptionGenerator.ComposeRaisesOnlyFromDemo | fine_art_description_generator/utils/description_generator.py:104-110 | the composer raises only for a request the demo template rejects |
| Home.AnalyzeUpload | fine_art_description_generator/pages/home.py:22-50 | the store becomes the analysis step's function of the old store; the run reruns exactly when a dict came back |
| Home.RunsAnalysis | fine_art_description_generator/pages/home.py:22 | the analysis runs for a returned upload while `image_analysis` is absent from the store |
| Home.Prefill | fine_art_description_generator/pages/home.py:32-42 | the five `if "detected_*" in` copies, in the page's order (`PrefillCopies`, `PrefillKeepsOthers`) |
| Home.AnalysisState | fine_art_description_generator/pages/home.py:22-50 | the store after the analysis step, whose three cases `AnalysisStateCases` states |
| Home.AnalysisStateCases | fine_art_description_generator/pages/home.py:24-50 | an exception stores `{}`; a non-dict is stored alone; a dict is stored and pre-fills |
| Home.PrefillOneKeeps | fine_art_description_generator/pages/home.py:32-42 | one pre-fill leaves every other slot alone |
| Home.PrefillCopies | fine_art_description_generator/pages/home.py:32-42 | each present `detected_*` entry lands in its own slot |
| Home.PrefillKeepsOthers | fine_art_description_generator/pages/home.py:32-42 | the pre-fill adds and changes no other name |
| Home.PlainRecordPrefillsNothing | fine_art_description_generator/pages/home.py:32-42 | a dict without `detected_*` keys pre-fills nothing |
| Home.AnalyzerKeysAreNotDetected | fine_art_description_generator/utils/image_analyzer.py:104-109 | none of the six keys the analyzer asks for starts with `detected_` |
| Home.AnalysisOnlyForNewImage | fine_art_description_generator/pages/home.py:22 | with an analysis stored, the analysis runs exactly for a new file that passed the image check |
| Home.RejectedFileNeverAnalysed | fine_art_description_generator/app.py:14-29 | the application initializes the store before the page, which puts `image_analysis` back, so a rejected file returned on the next run is never analysed; two bare page runs would analyse it |
| Home.AnalysisRunsOnce | fine_art_description_generator/pages/home.py:22-50 | after an analysis something is stored (the result or `{}`), so it does not run again for the same upload |
| Home.AnalysisWritesOnlyItsSlots | fine_art_description_generator/pages/home.py:22-50 | the step writes only `image_analysis` and the five pre-fill slots |
| Home.AnalysisKeepsTyped | fine_art_description_generator/pages/home.py:22-50 | the step keeps the store typed |
| Home.AnalyzerRecordFillsNothing | fine_art_description_generator/pages/home.py:32-45 | a record with the analyzer's keys is stored, pre-fills nothing, and still ends the run with a rerun |
| Home.DemoRecordFillsNothing | fine_art_description_generator/pages/home.py:32-42 | the demo record pre-fills nothing |
| Home.UnreadableImageStoresEmptyAnalysis | fine_art_description_generator/pages/home.py:48-50 | an unreadable image stores `{}` and the run carries on |
| Home.GetOr | fine_art_description_generator/pages/home.py:87-94 | `get(name, default)` is the stored value, or the default when absent |
| Home.PageRequest | fine_art_description_generator/pages/home.py:87-108 | the arguments are read exactly when the seven attributes exist (else AttributeError); the seven are passed as stored, and image data, keywords, tone and length default to `{}`, "", "Professional" and 150 |
| Home.FallbackText | fine_art_description_generator/pages/home.py:114-131 | the fallback text is never empty |
| Home.GeneratedText | fine_art_description_generator/pages/home.py:82-135 | the text stored on submit is never empty |
| Home.Generate | fine_art_description_generator/pages/home.py:82-135 | the store becomes the old store with the generated, fallback or retry text as the description |
| Home.GenerationWritesDescription | fine_art_description_generator/pages/home.py:82-135 | on submit the description becomes a non-empty string, and nothing else changes |
| Home.GenerationKeepsTyped | fine_art_description_generator/pages/home.py:82-135 | generation keeps the store typed |
| Home.MissingFieldAsksToRetry | fine_art_description_generator/pages/home.py:96-135 | a missing attribute stores the retry message |
| Home.AcceptedTextStored | fine_art_description_generator/pages/home.py:111-112 | a non-empty text that is not an error report is stored as it is |
| Home.Accepted | fine_art_description_generator/pages/home.py:111 | a text is kept when it is non-empty and does not start with `Error generating description` |
| Home.GenerationState | fine_art_description_generator/pages/home.py:82-135 | on submit the description becomes the generated, fallback or retry text, otherwise the store is unchanged (`GenerationWritesDescription`) |
| Home.RejectedTextFallsBack | fine_art_description_generator/pages/home.py:114-135 | a rejected text is replaced by the demo description, or by the retry message when the template raises |
| Home.ComposeMeetsRequirement | fine_art_description_generator/utils/description_generator.py:104-110 | the composer model meets the page's requirement of raising only when the demo template does |
| Home.NoRetryWhenDemoApplies | fine_art_description_generator/pages/home.py:111-135 | with such a composer, a request the template accepts stores the generated text or the demo description |
| Home.FormProvidesRequest | fine_art_description_generator/pages/home.py:80-108 | after the form the seven attributes exist and style and medium are strings |
| Home.PlainImageDataDemoDefaults | fine_art_description_generator/utils/description_generator.py:118-120 | image data without `detected_*` keys leaves the template its own words |
| Home.RunPage | fine_art_description_generator/pages/home.py:8-146 | every run of the page keeps the store typed |
| Home.Show | fine_art_description_generator/pages/home.py:8-146 | upload, analysis (ending the run on a rerun), form, generation on submit and preview, step by step; the new store and outcome are the page function's |
| Home.SubmittedRunOffersDescription | fine_art_description_generator/pages/home.py:80-146 | a submitted run that reaches the form ends with a non-empty description, which is offered for download exactly as stored |
| Home.GeneratedThenPreviewed | fine_art_description_generator/pages/home.py:82-146 | a freshly generated description survives an untouched preview and is the download's data |
| Home.RerunHappensOnce | fine_art_description_generator/pages/home.py:22-45 | after a rerun, the next run with the same file is rendered in full |
| ChatApp.ChatModels | streamlit_app.py:30-32 | the kept ids are the listed ids containing `gpt-` or `claude-`, each as often as listed |
| ChatApp.IsChatModel | streamlit_app.py:32 | an id is a chat model when it contains `gpt-` or `claude-` |
| ChatApp.LexLeTotal | streamlit_app.py:33 | Python's string order is total |
| ChatApp.LexLeTrans | streamlit_app.py:33 | Python's string order is transitive |
| ChatApp.LexLeAntisym | streamlit_app.py:33 | Python's string order is antisymmetric |
| ChatApp.Insert | streamlit_app.py:33 | inserting into a descending list keeps it descending and adds exactly the element |
| ChatApp.SortDescending | streamlit_app.py:33 | `sorted(..., reverse=True)` is descending and a permutation of its input |
| ChatApp.DescendingHeadIsMax | streamlit_app.py:33 | the first of a descending list is its greatest element |
| ChatApp.DescendingUnique | streamlit_app.py:33 | two descending permutations of the same ids are equal |
| ChatApp.AvailableModels | streamlit_app.py:27-36 | the listed chat models in descending order as a permutation, or the four fixed ids when listing raised |
| ChatApp.FallbackDescending | streamlit_app.py:36 | the fixed list is itself in descending order |
| ChatApp.SelectedModel | streamlit_app.py:58-63 | a model is selected exactly when the list is non-empty, and it is one of the list |
| ChatApp.SelectedIsGreatest | streamlit_app.py:27-63 | the model selected first is the greatest listed chat id in code-point order |
| ChatApp.BuildApiMessages | streamlit_app.py:164-175 | the loop builds the system message (when there is file text) followed by the history |
| ChatApp.ApiMessagesShape | streamlit_app.py:164-175 | the system message comes first exactly when there is file text and embeds it; every history message follows in order |
| ChatApp.ApiMessages | streamlit_app.py:164-175 | the system message with the file text when there is any, then the history; `ApiMessagesShape` states its shape and `BuildApiMessages` is proved equal to it |
| ChatApp.Accumulate | streamlit_app.py:180-198 | the loop gathers exactly the non-empty chunks in order |
| ChatApp.StreamTextAppend | streamlit_app.py:196-198 | gathering distributes over a split of the stream |
| ChatApp.StreamText | streamlit_app.py:180-198 | the non-empty chunks concatenated in order (`StreamTextAppend`, `StreamTextSingle`); `Accumulate` is proved equal to it |
| ChatApp.StreamTextSingle | streamlit_app.py:197-198 | a chunk contributes its text exactly when it is non-empty |
| ChatApp.ReplyText | streamlit_app.py:180-205 | the reply is the gathered text, or the apology prefix followed by the error's text when the stream failed |
| ChatApp.ChatSession.constructor | streamlit_app.py:39-40 | a new session has an empty history and no file content set |
| ChatApp.ChatSession.SyncFile | streamlit_app.py:118-139 | the history is unchanged; the file content becomes the sidebar's result |
| ChatApp.ChatSession.ClearChat | streamlit_app.py:142-145 | an empty history and no file content |
| ChatApp.ChatSession.Turn | streamlit_app.py:155-208 | the file content is unchanged; the outcome and the new history are the turn's functions of the old state |
| ChatApp.ChatSession.Run | streamlit_app.py:118-208 | the sidebar, then either the cleared chat or the turn on the synced content |
| ChatApp.AnsweredTurnAppendsPair | streamlit_app.py:155-208 | an answered turn appends exactly the user's message and then an assistant message, and asks with the user's message last |
| ChatApp.TurnHistory | streamlit_app.py:155-208 | the history after a turn: unchanged when idle, the user message alone on a crash, the user message and the reply when answered (`AnsweredTurnAppendsPair`, `QuietTurns`) |
| ChatApp.AnsweredTurnReply | streamlit_app.py:180-208 | the assistant message is the gathered text, or the apology prefix followed by the error's text on failure |
| ChatApp.QuietTurns | streamlit_app.py:155-167 | sending nothing changes nothing; a crash keeps only the user's message and happens only on unset content |
| ChatApp.SyncedFileIsSet | streamlit_app.py:118-167 | after the sidebar without a file, or with an included one, the content is set and a turn cannot crash |
| ChatApp.ExcludedFileOnFirstRunCrashes | streamlit_app.py:127-167 | as written, a first run with a file that is not included would leave the content unset and sending a message would raise; Streamlit's checkbox default rules this run out |
| PyValue.Get | fine_art_description_generator/utils/description_generator.py:118 | `d.get(k)` finds a value exactly when an entry has key `k`, and the value is that entry's |
| PyValue.Truthy | fine_art_description_generator/utils/description_generator.py:38 | Python truthiness: None, False, 0 and empty strings, lists and dicts are false |
| PyValue.Format | fine_art_description_generator/utils/description_generator.py:39 | `str(v)`: a string as it is, any other value its `repr` |
| PyValue.FormatScalars | fine_art_description_generator/utils/description_generator.py:39 | `str()` of a string is the string itself; None and the booleans are written `None`, `True` and `False` |
| PyValue.EscapePlain | fine_art_description_generator/utils/description_generator.py:39 | inside a string's `repr`, characters other than the backslash, the quote and the three control characters are written as they are |
| PyValue.StrReprPlain | fine_art_description_generator/utils/description_generator.py:39 | a string without quotes, backslash or control characters is written between single quotes unchanged |
| PyValue.EscapeOneLine | fine_art_description_generator/utils/description_generator.py:39 | escaping leaves no newline |
| PyValue.StrReprOneLine | fine_art_description_generator/utils/description_generator.py:39 | the `repr` of a string is one line |
| PyValue.GetFirstMatch | fine_art_description_generator/pages/home.py:33-42 | lookup gives the first entry under the key |
| PyValue.PyLower | fine_art_description_generator/utils/description_generator.py:123 | `.lower()` succeeds exactly on strings |
| Text.Lower | fine_art_description_generator/utils/description_generator.py:64 | `lower()` keeps the length and maps each character |
| Text.Capitalize | fine_art_description_generator/utils/description_generator.py:39 | `capitalize()` upper-cases the first character and lower-cases the rest |
| Text.ReplaceLeading | fine_art_description_generator/utils/description_generator.py:39 | replacing a leading occurrence replaces it and goes on with the rest |
| Text.ReplaceAll | fine_art_description_generator/utils/description_generator.py:39 | `str.replace` for a non-empty pattern, left to right without overlaps (`ReplaceLeading`, `ReplaceCharRemovesIt`) |
| Text.ReplaceCharRemovesIt | fine_art_description_generator/components/description_preview.py:39 | `replace(' ', '_')` keeps the length and leaves no space |
| Text.ReplaceCharAt | fine_art_description_generator/components/description_preview.py:39 | `replace(c, d)` for one character maps each position on its own: `d` where `c` stood, the character otherwise |
| Text.Strip | fine_art_description_generator/utils/description_generator.py:102 | `strip()` is a contiguous piece of the input that neither starts nor ends with whitespace |
| Text.StripCutsOnlySpace | fine_art_description_generator/utils/description_generator.py:102 | everything `strip()` removes is whitespace |
| Text.StripIdempotent | fine_art_description_generator/utils/description_generator.py:102 | stripping twice is stripping once |
| Text.StripPadded | fine_art_description_generator/utils/image_analyzer.py:102-127 | whitespace around a trimmed text is exactly what `strip()` removes |
| Text.SplitJoin | fine_art_description_generator/utils/image_analyzer.py:70 | splitting undoes `"\n".join` when no part holds a newline |
| Text.Hex02OfByte | fine_art_description_generator/utils/image_analyzer.py:59 | `{:02x}` writes a byte as exactly two hex digits, high nibble first |

## Left out

- Streamlit rendering is left out: titles, markdown, expanders, spinners, `st.success`/`st.error`/`st.info`/`st.warning` messages, and the page's analysis-results expander (`pages/home.py:59-77`). None of it changes the session store.
- The preview's "Copy to Clipboard" button and the Shopify hint are left out. Both only display.
- The image-details expander of the upload step is left out (`image_upload.py:41-49`); it only displays, and its size is a float.
- The upload step's outer `except` (`image_upload.py:58-60`) is left out. Only `seek` or the session store could raise there.
- Widget state is simplified. Each widget returns either the user's input (a `FormInput` field) or the value it is shown with. Streamlit's form-commit timing and widget keys are not modelled.
- Image decoding, `convert`, `resize`, k-means clustering and PNG/base64 encoding are left out. An image is its list of integer centroids, or unreadable (`ImageAnalyzer.LoadedImage`).
- The remote services are parameters, not models: chat completions, the vision call, `models.list`, and the streamed completion. So is `json.loads`. Their temperature, token and penalty arguments are left out; they are floats passed straight to the service.
- The chat page's API-key input, `load_dotenv`, `st.set_page_config` and `st.stop` (`streamlit_app.py:7-24`, `49-55`) are left out. They are configuration, not state.
- The chat page's temporary file (`streamlit_app.py:120-122`) is left out. Reading it is the `read` parameter of `ChatSession.SyncFile`.
- The display of the history and the streaming cursor are left out; they are presentation.
- `st.experimental_rerun` is modelled as ending the run (`Cleared`). `st.rerun` is modelled as `Reran`.
- The `print` and `logging` calls are left out. They have no effect on results.
- Of `app.py` only the initialization before the page is modelled (`Home.RejectedFileNeverAnalysed`); its page configuration, CSS and navigation are not. These files are not part of this model: `run.py`, `setup.py`, `setup_check.py`, `import.py` and `pages/about.py`.
- Floating-point values are not among the modelled `PyValue.Value`s: JSON floats, and the upload size formatted as KB.
- PyValue.Value: a dict is a list of entries, which may repeat a key where a Python dict cannot. `PyValue.Get` takes the first entry under a key.
- PyValue.Repr: escapes only backslash, the quote, `\n`, `\r` and `\t`. Other non-printable characters are not escaped as Python's `repr` escapes them. An uploaded file is written `UploadedFile('<name>')` and a function `<function name>`, not Python's `UploadedFile(file_id=…, …)` and `<function reset_app at 0x…>`; no modelled path formats either value.
- Home.RunPage and Home.Show: model `home.show()` alone. The application runs `initialize_session_state()` before every run, which restores a deleted `image_analysis`; the page lemmas do not compose it in, so two bare `RunPage` calls analyse a file the application never analyses (`Home.RejectedFileNeverAnalysed` states the difference).
- Text.Lower: maps only the ASCII letters A-Z. Python's Unicode case mapping of other letters is left out.
- Text.Capitalize: maps only ASCII letters, and upper-cases the first character where Python uses its title case.
- ImageUpload.SameFile: compares uploaded files by their file id only, as Streamlit does. The file's bytes are not modelled.
- SessionState.Name: names outside the application are lumped into `Other(text)`. `Other("art_style")` and `ArtStyle` are different map keys for the same Python name, so a store could hold one session key twice. The model never builds an `Other` name; `SessionState.Canonical` excludes the application's own names from `Other`, and `SessionState.KeyInjective` shows that canonical names are distinct session keys.
- ImageAnalyzer.ColorBlocksLines: needs every hex to be one line. `ImageAnalyzer.ToHexIsOneLine` proves this for byte colours.
- ImageAnalyzer.AnalyzeSendsColorTable: needs at least one centroid. k-means with `n_clusters=3` on the 150×150 copy always yields three.
- ChatApp.SyncedFile and ChatApp.TurnResult: specification functions with no contract of their own. Their properties are the lemmas `SyncedFileIsSet`, `ExcludedFileOnFirstRunCrashes` and `QuietTurns`.
