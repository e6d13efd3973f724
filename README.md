# ShivAI radiology reporting: template store, classifier and requests

A Dafny model of the logic inside `app.py` of the ShivAI radiology reporting
app, the part between the Streamlit page and the OpenAI calls:

- **Template store** (`templates.dfy`, module `Templates`). The `templates`
  directory is a map from file name to content, held in the one field of the
  class `TemplateDirectory`. The sidebar's Add, Edit and Delete blocks are the
  methods `Save`, `Read` + `Update` and `Delete`; each states its whole new
  state and that no other file changes. `load_template` is `LoadTemplate`,
  a function of the directory contents and the (possibly missing) name. It
  resolves in three tiers: the stored file `<name>.txt`, then the built-in
  `BASELINE_TEMPLATES` table (`Baseline`), then nothing. `list_templates` is
  `ListTemplates`, the stored names ending in `.txt`. Files are read in text
  mode (`Text.ReadText`).
- **Keyword classifier** (`classifier.dfy`, module `Classifier`).
  `detect_template_from_findings` is the loop method
  `DetectTemplateFromFindings`. It is proved against the recursive
  first-match function `Detect` and against the first-match property itself.
  The keyword table keeps its insertion order (`Keywords`).
- **Requests** (`prompts.dfy`, module `Prompts`). The generation request and
  the comparison request are a fixed instruction followed by two labelled
  sections. `Split` reads the sections back, and the lemmas show that the
  requests carry their inputs verbatim.
- **Generate Report workflow** (`pipeline.dfy`, module `Pipeline`). It
  selects a template (auto-detected or chosen by hand), loads it, and ends
  either in the not-found warning or in the generation request. The compare
  workflow has no branch: it always builds `Prompts.ComparisonPrompt`.
- `text.dfy` (module `Text`) models `str.lower`, the substring test,
  `str.endswith` and the text-mode read of a file. `options.dfy` holds `Option`, the model of Python's `None`.

The model keeps the code's own behaviour where it is surprising:

- A missing name (auto-detection found nothing) formats as `"None"`. So
  `load_template(None)` looks up the file `None.txt`, the same file as the
  name `"None"` (`MissingNameLooksUpNoneFile`).
- Manual selection passes a listed file name, which already ends in `.txt`.
  `load_template` appends `.txt` again, and such a name is never a baseline
  key. The choice therefore resolves only if a file `<chosen>.txt` also
  exists (`ListedNameLooksUpDoubleExtension`, `ListedChoiceIsNotFound`).
- `if not template` treats an empty stored template like a missing one
  (`EmptyStoredTemplateIsNotFound`).
- There is no separate empty-input error. With auto-detection, empty
  findings detect nothing and take the `None.txt` path
  (`EmptyFindingsIsNotFound`); with a template chosen by hand they are merged
  like any other findings.
- Files are read in text mode, so a stored `"\r\n"` or lone `"\r"` reads
  back as `"\n"` (`Text.ReadText`). Loading and the Edit block see the text
  as read, not as stored.
- The code has no remote template source, no line diff and no model-based
  classification, and neither has the model.

## Model

| member | source | states |
|---|---|---|
| `Text.Lower` | app.py:60 | `text.lower()` keeps the length and lower-cases each character in place |
| `Text.LowerIdempotent` | app.py:60 | lower-casing an already lower-cased text changes nothing |
| `Text.ReadText` | app.py:42-43 | reading a file in text mode leaves no carriage return, never lengthens the text and keeps a non-empty text non-empty |
| `Text.ReadTextNewlines` | app.py:42-43 | after plain text, a `"\r\n"` pair and a lone `"\r"` each read as a single `"\n"` |
| `Text.ReadTextKeepsPlainText` | app.py:42-43 | text without carriage returns reads back exactly as stored |
| `Text.ReadTextIdempotent` | app.py:79-84 | reading text that was already read changes nothing |
| `Templates.FileName` | app.py:40 | the f-string `f"{name}.txt"` always ends in `.txt`, and what precedes it is the name, or `"None"` for a missing name |
| `Templates.LoadTemplate` | app.py:39-46 | a stored `<name>.txt` always gives a template, and any template comes from the stored file or from the baseline table |
| `Templates.ListTemplates` | app.py:36-37 | exactly the stored files ending in `.txt` are listed: only stored files, only with that extension, and every file a template name is saved under |
| `Templates.LoadTiers` | app.py:39-46 | a stored `<name>.txt` wins even over a baseline template of the same name and gives its text as read; otherwise the baseline body; the result is `None` exactly when neither tier has the name |
| `Templates.BaselineNamesHaveNoExtension` | app.py:23-34 | no key of `BASELINE_TEMPLATES` ends in `.txt` |
| `Templates.BaselineBodiesNonEmpty` | app.py:23-34 | every built-in template body is non-empty |
| `Templates.ListedNameLooksUpDoubleExtension` | app.py:36-46 | a name taken from `list_templates` resolves only through a stored `<name>.txt`, that is a `.txt.txt` file, and never through the baseline |
| `Templates.MissingNameLooksUpNoneFile` | app.py:39-46 | a missing name resolves only through a stored `None.txt`, the same file as the name `"None"` |
| `Templates.TemplateDirectory.constructor` | app.py:20-21 | the store starts from whatever the directory already holds |
| `Templates.TemplateDirectory.Save` | app.py:72-73 | Add writes or overwrites `<name>.txt` and changes nothing else; afterwards the name loads the saved content as read in text mode (exactly the content when it has no carriage return) and the file is listed |
| `Templates.TemplateDirectory.Read` | app.py:79-80 | Edit shows the selected listed file's content as read in text mode |
| `Templates.TemplateDirectory.Update` | app.py:83-84 | Edit overwrites only the selected file; the set of files and the listing are unchanged |
| `Templates.TemplateDirectory.Delete` | app.py:90 | Delete removes only the selected file; it leaves the listing, and loading its name falls back to the baseline body or `None` |
| `Classifier.FirstMatch` | app.py:59-62 | whatever ordered first-match returns is one of the table's template names |
| `Classifier.FirstMatchSpec` | app.py:59-62 | ordered first-match returns nothing exactly when no keyword occurs, else the template of the earliest occurring keyword |
| `Classifier.Detect` | app.py:48-62 | first-match of the keyword table against the lower-cased text; every detected name is a key of `BASELINE_TEMPLATES` |
| `Classifier.DetectTemplateFromFindings` | app.py:48-62 | the loop returns `None` exactly when no keyword occurs in the lower-cased text, and otherwise the template of the earliest keyword in table order that occurs |
| `Classifier.DetectIgnoresCase` | app.py:60 | a text and its lower-cased form classify alike |
| `Classifier.DetectEmpty` | app.py:59-62 | the empty text classifies as `None` |
| `Classifier.DetectedAlwaysLoads` | app.py:44-45 | `load_template` of a detected name never returns `None`, whatever the directory holds |
| `Classifier.TemplatesDistinct` | app.py:49-58 | the keyword table maps different entries to different template names |
| `Classifier.HigherPriorityWins` | app.py:49-61 | once a keyword occurs, a template is detected, and never that of a keyword later in the table, wherever the later keyword appears in the text |
| `Classifier.LiverOutranksBrain` | app.py:50-61 | text mentioning both "brain" and "liver" classifies as "CT Abdomen", not "MRI Brain" |
| `Prompts.GenerationPrompt` | app.py:134 | the generation request opens with the fixed instruction and reads back into exactly the template (under `TEMPLATE:`) and the findings (under `FINDINGS:`) |
| `Prompts.GenerationPromptInjective` | app.py:134 | equal generation requests with equally long templates come from equal inputs |
| `Prompts.ComparisonPrompt` | app.py:108 | the comparison request opens with the fixed instruction and reads back into exactly the current report and the prior reports under their labels |
| `Prompts.ComparisonPromptInjective` | app.py:108 | equal comparison requests with equally long current reports come from equal inputs |
| `Pipeline.SelectTemplate` | app.py:120-126 | with auto-detection the selection is `None` exactly when no keyword occurs and otherwise the template of the earliest occurring keyword, a baseline name; without it, the template chosen by hand |
| `Pipeline.GenerateReport` | app.py:128-134 | a request is built exactly when the selected template loads as non-empty text, and it carries that template and the findings verbatim; otherwise the warning names the selection |
| `Pipeline.DetectedTemplateYieldsRequest` | app.py:123-134 | with auto-detection, a detected template always yields a request unless a stored file overrides it with empty content |
| `Pipeline.NothingDetectedIsNotFound` | app.py:124-132 | with auto-detection and no keyword found, the outcome is the not-found warning for `None` unless `None.txt` is stored |
| `Pipeline.EmptyFindingsIsNotFound` | app.py:118-132 | with auto-detection, empty findings reach the warning, not the generator, unless `None.txt` is stored |
| `Pipeline.ListedChoiceIsNotFound` | app.py:121-132 | a template chosen by hand from the listing gives the warning unless a `.txt.txt` twin is stored |
| `Pipeline.EmptyStoredTemplateIsNotFound` | app.py:120-132 | a selected template stored with empty content is treated as not found, however it was selected, even a detected baseline name |

## Left out

- Text.Lower: models `str.lower` on the ASCII letters `A`-`Z` only. Python also lower-cases other Unicode letters, and some of them change the text's length; the keywords are ASCII.
- The Streamlit page: layout, radio buttons, text areas, select boxes, checkboxes, spinner, messages, download button and `st.stop`. Only the state changes and the values they pass on are kept. A select box offers only listed files, so `Read`, `Update` and `Delete` require a listed file.
- The OpenAI chat-completion calls and the reading of their answers. Their output is not deterministic, so both workflows end at the request that would be sent.
- Loading the API key from the secrets store, and `os.makedirs`. The constructor takes the directory's existing contents instead.
- File-system detail: path separators inside a name, a directory named `*.txt`, read or write errors and text encoding. The directory is a flat map from file name to content. Writing is taken as on a POSIX system, where text mode stores `"\n"` unchanged; the newline translation on reading is modelled (`ReadText`).
- The order of `os.listdir`. `ListTemplates` is a set of names.
- The `show_changes` checkbox, which the code never uses.
