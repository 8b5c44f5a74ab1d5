# Chatterbox TTS integration: a verified model

The integration lets a Home Assistant installation speak through an external
Chatterbox HTTP TTS server. It has two parts, and this project models both:

- **The speech entity** (`tts.py`, module `Tts`). It is built from a config
  entry: the server URL loses its trailing slashes, and the configured voice
  file name is cleaned into the entity's unique id and entity id. For each
  speech call it merges its options in three tiers: built-in defaults
  (exaggeration `0.5`, speed factor `1.0`), then stored options, then per-call
  overrides. It builds the JSON payload, which carries the voice under exactly
  one of `reference_audio_filename` (clone mode) or `predefined_voice_id` (any
  other mode). When no voice is configured it stops before any request. It
  maps the reply: status 200 gives `("mp3", body)`, and any other status or
  any exception gives `(None, None)`.
- **The config flows** (`config_flow.py`, module `ConfigFlow`). The setup
  flow asks for the URL and the voice mode, then shows a voice form. The
  options flow shows the same voice form, seeded from the entry's data
  overridden by its options. Each voice form turns the server's voice listing
  into dropdown entries with a mode-specific builder. When the listing yields
  no entries, a fixed non-empty fallback list replaces it. The flow records
  `fetch_voices_failed` only when an exception is raised; a non-200 status
  falls back silently. The form preselects the stored voice when it is set,
  else the first entry.

Shared pieces: module `Values` holds the scalar values kept in config entries
and payloads, together with Python's truthiness, `str()`, `dict.get` and
`{**a, **b}`. Module `PyStrings` holds the string methods the integration
calls: `rstrip("/")`, `split(".")[0]`, `replace` and `lower()`.

The network is not modelled. A POST is replaced by a `PostOutcome` value: an
exception, or a status and body. A GET of the voice listing is replaced by a
`FetchOutcome` value: an exception, or a status and the decoded JSON array,
which is absent when decoding fails. `GetTtsAudio` also returns the request
it would send, so "no request is made" is part of its contract.

Two consequences of the code as written, kept as they are in the model:
the options flow stores its voice choice in the entry's options, but the
speech entity reads the voice and the mode from the entry's data only
(`SpeechPayload` takes only the data, and `PayloadVoiceIgnoresOptions`
states this). Exaggeration and speed chosen during setup are stored in the
entry's data, while the entity reads them from its options only
(`TtsEntity.DefaultOptions`).

## Model

| member | source | states |
|---|---|---|
| `Values.Merge` | custom_components/chatterbox_tts/config_flow.py:53 | `{**lower, **higher}` has the keys of both; keys of the later dict take its value, the other keys keep the earlier one |
| `PyStrings.RStrip` | custom_components/chatterbox_tts/tts.py:33 | `rstrip` gives a prefix of the input that does not end in the character, and only that character was removed |
| `PyStrings.RStripUnique` | custom_components/chatterbox_tts/tts.py:33 | those three properties determine the stripped string completely |
| `PyStrings.RStripIdempotent` | custom_components/chatterbox_tts/config_flow.py:58 | stripping an already stripped URL changes nothing |
| `PyStrings.SplitFirst` | custom_components/chatterbox_tts/tts.py:35 | `split(".")[0]` is a prefix with no separator, followed in the input by the separator or by nothing |
| `PyStrings.SplitFirstNoSep` | custom_components/chatterbox_tts/tts.py:35 | a text without the separator splits to itself |
| `PyStrings.Replace` | custom_components/chatterbox_tts/tts.py:35 | `replace` keeps the length and swaps exactly the occurrences of the one character |
| `PyStrings.LowerChar` | custom_components/chatterbox_tts/tts.py:35 | a lowered character is never upper case, other characters are unchanged, upper-case letters move to their lower-case partner |
| `PyStrings.Lower` | custom_components/chatterbox_tts/tts.py:35 | `lower()` keeps the length and lowers each character |
| `Tts.CleanVoice` | custom_components/chatterbox_tts/tts.py:35 | the clean voice name contains no ".", "-" or " ", and no upper-case letter |
| `Tts.CleanVoiceAt` | custom_components/chatterbox_tts/tts.py:35 | the clean name covers exactly the part of the raw name before its first ".", each character cleaned on its own |
| `Tts.CleanVoiceFixesClean` | custom_components/chatterbox_tts/tts.py:35 | a name that is already clean is unchanged |
| `Tts.CleanVoiceIdempotent` | custom_components/chatterbox_tts/tts.py:35 | cleaning twice is cleaning once |
| `Tts.TtsEntity.constructor` | custom_components/chatterbox_tts/tts.py:30-38 | the entity keeps the data and the options (empty when none are given), its URL is the configured one without trailing "/", and its ids are `chatterbox_tts_` and `tts.chatterbox_` followed by the clean voice name; without a configured voice they are `chatterbox_tts_default` and `tts.chatterbox_default` |
| `Tts.NoVoiceCleansToDefault` | custom_components/chatterbox_tts/tts.py:34-35 | without a configured voice the clean voice name is "default" |
| `Tts.TtsEntity.DefaultOptions` | custom_components/chatterbox_tts/tts.py:52-57 | stored options override the built-in defaults exaggeration 0.5 and speed factor 1.0, so both keys are always present |
| `Tts.TtsEntity.EffectiveOptions` | custom_components/chatterbox_tts/tts.py:65 | per-call overrides beat stored options, which beat the built-in defaults; both numeric keys are always present |
| `Tts.SpeechPayload` | custom_components/chatterbox_tts/tts.py:66-83 | a payload exists exactly when the setup data holds a truthy voice; it has the message as text, the fixed output format, split flag and chunk size, the mode (clone when unset), and exactly one voice key chosen by the mode |
| `Tts.PayloadNeverBothVoiceKeys` | custom_components/chatterbox_tts/tts.py:75-80 | a payload never carries both voice keys, and always carries one |
| `Tts.PayloadVoiceIgnoresOptions` | custom_components/chatterbox_tts/tts.py:66-80 | options decide only the two numeric fields, never whether a request is made nor the voice or mode it names |
| `Tts.AudioFor` | custom_components/chatterbox_tts/tts.py:86-97 | audio is returned exactly for a status 200 reply, as mp3 with the body unchanged; other statuses and exceptions give no audio |
| `Tts.TtsEntity.GetTtsAudio` | custom_components/chatterbox_tts/tts.py:59-97 | a request to `{url}/tts` with the payload is sent exactly when a payload exists; without one the result is no audio and nothing is sent; otherwise the reply is mapped as `AudioFor` says |
| `Tts.HelloAliceExample` | custom_components/chatterbox_tts/tts.py:66-94 | predefined voice Alice.wav with text "hello" gives exactly the eight-field body, and a 200 reply gives its bytes as mp3 |
| `ConfigFlow.SetupFallback` | custom_components/chatterbox_tts/config_flow.py:77-86 | the setup flow's fallback list is never empty |
| `ConfigFlow.OptionsFallback` | custom_components/chatterbox_tts/config_flow.py:150-158 | the options flow's fallback list is never empty |
| `ConfigFlow.BuildOption` | custom_components/chatterbox_tts/config_flow.py:60-65 | in predefined mode an item with filename and display_name becomes (filename, display_name) and any other item raises; in clone mode an item becomes (item, item) |
| `ConfigFlow.BuildOptions` | custom_components/chatterbox_tts/config_flow.py:73 | building succeeds exactly when every item can be built, and then keeps the number and order of the items |
| `ConfigFlow.Listing` | custom_components/chatterbox_tts/config_flow.py:67-75 | the try block raises exactly on a transport error, an undecodable body or an unbuildable item; a non-200 status leaves the list empty |
| `ConfigFlow.Resolved` | custom_components/chatterbox_tts/config_flow.py:67-89 | the shown list is never empty: the listing when it has entries, else the fallback; the error is recorded exactly when the try block raised |
| `ConfigFlow.Non200FallsBackSilently` | custom_components/chatterbox_tts/config_flow.py:71-72 | a non-200 status gives the fallback list and no error |
| `ConfigFlow.RaisedFallsBackWithError` | custom_components/chatterbox_tts/config_flow.py:74-75 | an exception gives the fallback list and `fetch_voices_failed` |
| `ConfigFlow.EmptyListingFallsBack` | custom_components/chatterbox_tts/config_flow.py:77-86 | an empty listing with status 200 gives the fallback list and no error |
| `ConfigFlow.CloneListingShown` | custom_components/chatterbox_tts/config_flow.py:64-73 | a non-empty reference-file listing is shown file by file, in order, as (file, file), with no error |
| `ConfigFlow.ResolveVoiceOptions` | custom_components/chatterbox_tts/config_flow.py:67-86 | the imperative fetch-then-fallback leaves the options and errors that `Resolved` describes, with at least one option |
| `ConfigFlow.DefaultVoice` | custom_components/chatterbox_tts/config_flow.py:89 | the preselected voice is the stored voice when it is truthy, else the first entry's value |
| `ConfigFlow.DefaultVoiceOffered` | custom_components/chatterbox_tts/config_flow.py:160 | without a usable stored voice the preselection is among the offered entries |
| `ConfigFlow.CurrentSettings` | custom_components/chatterbox_tts/config_flow.py:129 | the options flow's settings are the entry data overridden by the entry options |
| `ConfigFlow.SetupFlow.constructor` | custom_components/chatterbox_tts/config_flow.py:22-23 | a new setup flow has no data |
| `ConfigFlow.SetupFlow.StepUser` | custom_components/chatterbox_tts/config_flow.py:25-47 | without input the URL and mode form is shown and nothing changes; with input the flow keeps it as its data and shows the voice form: the resolved voices fetched from the stripped URL plus the mode's endpoint, the error, the default voice preselected, and the numeric defaults 0.5 and 1.0 |
| `ConfigFlow.SetupFlow.StepVoiceParams` | custom_components/chatterbox_tts/config_flow.py:49-115 | with input the entry is created from the first step's data overridden by this input; without, the form lists the resolved voices fetched from the stripped URL plus the mode's endpoint, preselects the default voice and carries the error |
| `ConfigFlow.OptionsFlow.StepInit` | custom_components/chatterbox_tts/config_flow.py:123-186 | with input it becomes the entry's options; without, the mode defaults to clone, the form lists the resolved voices with the options-flow fallback, and it is seeded from the current settings |

## Left out

- HTTP I/O (aiohttp sessions, the GET and POST themselves, the 60-second timeout, reading the body): replaced by the `PostOutcome` and `FetchOutcome` values passed in.
- Host plumbing: form schemas and selectors, the step-1 defaults (`http://localhost:8004`, clone), `_abort_if_unique_id_configured`, `async_get_options_flow`, `async_setup_entry`, and everything in `__init__.py`. These depend on the Home Assistant runtime.
- Float formatting: the text Python's `str()` gives a float is carried by the number value rather than computed, because float formatting is not modelled; the forms' numeric bounds and steps are enforced by the host's selectors.
- Values held in config entries, options and per-call overrides are JSON scalars (None, bool, number, str); a list or dict there is not modelled.
- A voice listing body that decodes to a JSON object or string is not modelled; Python would iterate over its keys or characters. A body is either a JSON array or undecodable.
- `PyStrings.Lower`: lower-cases ASCII letters only; Unicode case mapping is not modelled.
- `PyStrings.LowerChar`: lower-cases ASCII letters only, for the same reason as `PyStrings.Lower`.
- `Tts.CleanVoice`: inherits the ASCII-only lower-casing of `PyStrings.Lower`.
- `Tts.TtsEntity.constructor`: requires a str `url` and, when present, a str `reference_audio_filename`; otherwise tts.py:33-35 raises KeyError or AttributeError (for example on a stored None voice). The host's setup form always provides such data.
- `Tts.RawVoice`: requires a str `reference_audio_filename` when the key is present, for the same AttributeError at tts.py:35.
- `ConfigFlow.SetupFlow.StepVoiceParams`: without input, requires the first step's data to hold `voice_mode` and a str `url`; otherwise config_flow.py:57-58 raises KeyError or AttributeError. The first step's form guarantees both.
- `ConfigFlow.SetupFlow.StepUser`: requires the same of its input, which the first step's form guarantees.
- `ConfigFlow.OptionsFlow.StepInit`: without input, requires the current settings to hold a str `url`; otherwise config_flow.py:131 raises KeyError or AttributeError. Every entry created by the setup flow has one.
- The entity's display name (`.title()` and its en-dash), `default_language`, `supported_languages`, `supported_options` and logging: cosmetic or static.
- The `entry_id` argument of the entity constructor is accepted and unused, as in the source.
