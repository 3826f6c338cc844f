# ElevenLabs voice/model catalog cache — a Dafny model

This project models the catalog cache of `11labs_example.py`, a demo that puts the ElevenLabs text-to-speech API behind a Gradio form. The model covers:

- the two in-memory catalogs, `models` and `voices`;
- how they are loaded from `11labs/models.json` and `11labs/voices.json` and refreshed from the provider;
- the first-match lookups `model_exists` and `voice_exists`;
- the per-voice settings cache `voice_settings_dict`, with its cache files under `11labs/voice_settings`;
- the dropdown choice lists;
- the `Voice` / `VoiceLabels` record and the best-fit model of `get_voice_info_and_preview`;
- the empty-selection guard of `text_to_speech`.

Files:

- `pyjson.dfy` (module `PyJson`): JSON values as Python decodes them (`Json`). It also holds file and response contents (`Document`: decodable or not), the exceptions the code raises (`PyError`), and call results (`Outcome`: returned or raised). It gives Python truthiness, `d.get`, `x[key]` and the elements a `for` loop visits.
- `catalog.dfy` (module `Catalog`): the search (`Find`, `Lookup`, the loop `FindEntry`) and the choice lists (`ChoiceList`, `Choices`, the loop `BuildChoices`), with lemmas that pin the search to "first entry carrying the id, in list order" and the choices to "one `(name, id)` pair per entry, in order".
- `voice.dfy` (module `VoiceRecord`): `NewVoiceLabels`, `NewVoice`, `BestFit`, `VoiceInfoAndPreview`. The source's classes only assign fields in their constructors, so they are datatypes here. A constructor that raises is a function returning `Raised`.
- `app.dfy` (module `ElevenLabs`): the class `App` holding the global state (`models`, `voices`, `voiceSettings`, `disk`, `requests`), its methods, and the invariant `Valid()`: every decoded settings value in memory equals its file on disk.

Abstractions:

- The file system is `disk: map<string, Document>` from path to contents.
- Each HTTP GET is answered by a `Reply` argument (`Answered(status, body)` or `TransportError`). Every GET issued is appended to `requests`, so "no request is made" reads `requests == old(requests)`.
- `os.listdir` of the settings directory is the `listing` argument of the constructor.

Behaviour kept as the code has it:

- A voice refresh that gets a non-200 reply writes `null` to `voices.json` and leaves `voices` as None (`App.SaveVoices`). Later lookups and dropdowns then raise TypeError. A transport failure or an undecodable 200 body raises before anything is written, and then file and catalog are kept.
- `load_voices` keeps the whole document when it has no `"voices"` key (`UnwrapVoices`).
- The startup loop keys the settings cache by file name, including `.json`, and stores raw text. So an entry loaded at startup is found by voice id only when a file is named exactly by the id, without `.json` (`StartupEntriesMissInMemory`).
- `fine_tuning_language` reads the `"fine_tuning_state"` key.
- A voice entry without a `labels` dict makes `VoiceLabels` raise ValueError. `get_voice_info_and_preview` turns that error into its message (`MissingLabelsInfo`).

Four behaviours of the code that a reader might not expect, all modelled as written:

- The lookups raise TypeError or KeyError on a malformed catalog or entry; they do not return "not found".
- A voice refresh that gets a non-200 reply replaces the catalog with None; it does not leave the catalog untouched.
- An on-disk settings file that does not decode makes `load_voice_settings` raise; it is not treated as a cache miss.
- The lookup id is the dropdown's value, which is None when nothing is selected; `voice_exists(None)` returns the first entry whose `voice_id` is null.

## Model

| member | source | states |
|---|---|---|
| `Catalog.FindEntry` | 11labs_example.py:115-131 | the lookup loop returns exactly what `Lookup` specifies: the matching entry, or True when `returnit` is false, or False, or the exception of the first malformed entry |
| `Catalog.FindSkips` | 11labs_example.py:117-118 | entries that carry another id are passed over: the search over the list equals the search over the list after them |
| `Catalog.FindFirstMatch` | 11labs_example.py:117-120 | when entry k is a dict whose id field equals the argument (a string, or None for an empty selection) and every entry before it is a dict carrying another id, the search returns entry k |
| `Catalog.FindNoMatch` | 11labs_example.py:122 | when every entry carries another id, the search reports no match, so the lookup returns False |
| `Catalog.FindMalformed` | 11labs_example.py:117-118 | an entry reached before any match that is not a dict raises TypeError; one that lacks the id field raises KeyError |
| `Catalog.FindSound` | 11labs_example.py:115-122 | conversely, a returned entry is the first one carrying the id, "no match" means every entry carries another id, and an exception comes from the first entry that is not a dict with the id field |
| `Catalog.LookupAnswers` | 11labs_example.py:115-131 | a lookup returns False, or (with `returnit`) an entry carrying the id, or (without) True |
| `Catalog.BuildChoices` | 11labs_example.py:319-321 | the dropdown loop returns exactly the choice list `Choices` specifies for the catalog |
| `Catalog.ChoicesFollowCatalog` | 11labs_example.py:320-321 | a built choice list has the catalog's length, and its i-th pair is the i-th entry's `(name, id)` |
| `Catalog.ChoicesOfListableCatalog` | 11labs_example.py:328-330 | the choice list is built without error whenever every entry is a dict with a name and an id |
| `VoiceRecord.NewVoiceLabels` | 11labs_example.py:163-171 | raises ValueError("voice_labels must be a dictionary") exactly when given a non-dict; otherwise each label is the dict's value or None when absent, the use case read from "use case" |
| `VoiceRecord.FineTuningState` | 11labs_example.py:190-192 | None for a falsy `fine_tuning`; the dict's `"fine_tuning_state"` value (or None) for a non-empty dict; AttributeError exactly for a truthy non-dict |
| `VoiceRecord.NewVoice` | 11labs_example.py:174-195 | raises ValueError("Voice with ID … doesn't exist") when the lookup finds nothing, and passes lookup errors through; for a found entry, raises ValueError("voice_labels must be a dictionary") when its labels are not a dict and AttributeError for a bad `fine_tuning`, otherwise builds the voice from that entry: labels as `VoiceLabels` gives them, name and preview URL default to None, `high_quality_base_model_ids` to `[]`, `fine_tuning` as found, and both the fine-tuning state and the fine-tuning language read the `"fine_tuning_state"` key |
| `VoiceRecord.BestFit` | 11labs_example.py:210 | for a list, the first id or None when the list is empty; a non-None best fit only comes from a non-empty value |
| `VoiceRecord.VoiceInfoAndPreview` | 11labs_example.py:197-213 | a ValueError becomes `(message, "", None)`; every other exception passes through; a built voice yields its details, its preview URL and `BestFit` of its model ids, or the exception `BestFit` raises |
| `VoiceRecord.UnknownVoiceInfo` | 11labs_example.py:194-213 | an id such that every entry of a list catalog is a dict carrying another voice id yields `("Voice with ID <id> doesn't exist", "", None)` |
| `VoiceRecord.MissingLabelsInfo` | 11labs_example.py:183-213 | a found voice without a labels dict yields `("voice_labels must be a dictionary", "", None)` |
| `VoiceRecord.ListedVoiceInfo` | 11labs_example.py:197-211 | for an entry carrying the id, every entry before it being a dict carrying another id, with a labels dict, `fine_tuning` absent or a dict, and a list of high-quality model ids, the preview is its preview URL and the best fit is the first id or None when the list is empty |
| `ElevenLabs.JsonOrNone` | 11labs_example.py:84-89 | a decodable 200 gives its body, any other status gives None, and a transport failure or an undecodable 200 raises |
| `ElevenLabs.UnwrapVoices` | 11labs_example.py:62-67 | a document with a `"voices"` key yields that value; any other document is kept whole |
| `ElevenLabs.SettingsPathInjective` | 11labs_example.py:136 | different voice ids have different settings cache files |
| `ElevenLabs.SettingsPathIsNotCatalogFile` | 11labs_example.py:136 | a settings cache file is never `models.json` or `voices.json` |
| `ElevenLabs.StartupEntriesMissInMemory` | 11labs_example.py:71-75 | after startup, when no file named `<id>` is listed, the cache key is `<id>.json`, never `<id>`, so the cache answers with the decoded file, not the raw text loaded at startup |
| `ElevenLabs.FetchedEntryAnswersFromDisk` | 11labs_example.py:138-156 | when memory and disk agree, removing a fetched entry from memory does not change the cache's answer: the file written at the fetch gives the same value |
| `ElevenLabs.CachePrecedence` | 11labs_example.py:137-141 | memory is consulted before the file; the cache misses exactly when neither memory nor disk has the voice |
| `ElevenLabs.App.constructor` | 11labs_example.py:42-75 | the startup state: catalogs loaded from their files (or empty), the settings cache holding the raw text of every listed file keyed by file name, no request sent |
| `ElevenLabs.App.LoadSettingsDirectory` | 11labs_example.py:71-75 | adds one raw-text entry per listed file, keyed by file name, and keeps every other key |
| `ElevenLabs.App.LoadModels` | 11labs_example.py:51-57 | `models` becomes the decoded `models.json`; a missing or undecodable file leaves it unchanged |
| `ElevenLabs.App.LoadVoices` | 11labs_example.py:60-67 | `voices` becomes the unwrapped `voices.json`; a missing or undecodable file leaves it unchanged |
| `ElevenLabs.App.SaveModels` | 11labs_example.py:98-113 | sends one GET; only a decodable 200 is written to `models.json` and becomes `models`; otherwise file and catalog are unchanged, and a non-200 returns None |
| `ElevenLabs.App.SaveVoices` | 11labs_example.py:77-96 | sends one GET; what `get_voice_ids` returned is written to `voices.json` and reloaded, so after a non-200 the file holds `null` and `voices` is None; only an exception leaves both unchanged |
| `ElevenLabs.App.ModelExists` | 11labs_example.py:115-122 | returns the lookup of the model id (a string or None) in the current `models` |
| `ElevenLabs.App.VoiceExists` | 11labs_example.py:124-131 | returns the lookup of the voice id (a string or None) in the current `voices` |
| `ElevenLabs.App.LoadVoiceSettings` | 11labs_example.py:133-160 | with `use_cache` and a hit in memory or on disk, returns it with no request and no change; otherwise sends exactly one GET. A decodable 200 writes the file, sets only `voiceSettings[voiceId]` and returns it. A non-200 returns None and changes neither memory nor disk. Keeps `Valid()` |
| `ElevenLabs.App.GetModelsDropDown` | 11labs_example.py:315-322 | a non-empty argument replaces `models`, otherwise it is kept; returns the choices of the resulting catalog |
| `ElevenLabs.App.GetVoicesDropDown` | 11labs_example.py:324-331 | a non-empty argument replaces `voices`, otherwise it is kept; returns the choices of the resulting catalog |
| `ElevenLabs.SynthesisGuard` | 11labs_example.py:286-288 | rejects with `(None, "Model ID or Voice ID not selected.")` exactly when the model or the voice is None or empty |

## Left out

- The Gradio interface, its event handlers and the callbacks defined inside it (`get_models`, `get_voices`, `load_voice_settings_values`, `update_api_key_value`, `generate_tts_wrapper`). They are UI wiring.
- Real HTTP, the API-key header, certificate verification (`verify=cert_path` against `verify=False`) and `.env` loading. Replies are the `Reply` argument.
- The synthesis POST and the streamed write of `output.mp3` in `text_to_speech` and `test`. These are network I/O and binary file output; only the empty-selection guard is modelled.
- `VoiceRecord.VoiceInfoAndPreview`: the info text is not formatted. Python's `str()` of each field is not modelled, and `Details(voice)` stands for the text built from the voice.
- Numbers in JSON documents are opaque (`Num`): the voice-setting values are floating point and nothing here computes with them.
- `Items`: the key order of a dict catalog is not modelled. Iterating a non-empty dict or string catalog is reported as the TypeError that indexing its first element raises.
- ElevenLabs.SettingsPathInjective: paths are compared as strings, not normalised. An id containing `/` (such as `./a` next to `a`) names the same file as another id in the source; the lemma does not hold there.
- ElevenLabs.SettingsPathIsNotCatalogFile: for the same reason, an id such as `../models` names `11labs/models.json` in the source; the lemma holds only for ids without path separators, and an absolute id (which `os.path.join` keeps as is) is not modelled either.
- ElevenLabs.App.LoadVoiceSettings: with an id that contains `/`, the source reads and writes whatever file the normalised path names (possibly a catalog file or another voice's cache file); the model keeps it as a separate key of `disk`. Directory creation by `os.makedirs` is not modelled.
- VoiceRecord.NewVoice, ElevenLabs.App.LoadVoiceSettings: the voice id is a string. With nothing selected the source passes None: `Voice(None)` looks up None and reports "Voice with ID None doesn't exist" when no entry has a null id, and `load_voice_settings(None)` uses `None.json` and the key None. Python's `str()` of a None id is not modelled; the lookups themselves take None (`App.ModelExists`, `App.VoiceExists`).
- Concurrency: the methods of `App` run one at a time, each as one uninterrupted step. The script starts its interface with `demo.queue(default_concurrency_limit=None)`, which lets event handlers run at the same time in separate threads, so two settings loads for one voice can interleave their file write and their cache update. `Valid()` is an invariant of one-at-a-time runs only.
- A missing settings directory at startup, where `os.listdir` raises and the script stops, is not modelled. The `listing` argument is the directory's file names.
- Printed warnings and error messages to the console are not modelled.
- `gtts_example.py` and `pytts_example.py` are not part of this model. They are thin wrappers over the gTTS and pyttsx3 libraries.
