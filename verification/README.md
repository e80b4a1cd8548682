# AgriScan in Dafny

AgriScan lets a farmer photograph a crop or an animal and get a diagnosis back.
The browser client moves a scan screen through four stages: upload, preview,
scanning and results. A serverless proxy, `analyze-image`, forwards the photo
as a data URL to an AI gateway and returns the JSON object found in the
model's answer. The client keeps a newest-first history of at most 50
diagnoses in local storage, and the history screen searches it. The interface
text comes from three translation tables (English, Twi, Ewe), looked up with
a language → English → key fallback.

This project models that core and proves its properties:

- `wrappers.dfy`: `Option` and `Result`.
- `strings.dfy`: ASCII lower-casing, substring and prefix tests, `split` on one
  character with its `join` round trip, and decimal rendering of numbers.
- `translations.dfy`: the three translation tables, written out section by
  section, and the proof that all three define the same keys.
- `diagnosis_types.dfy`: the diagnosis record, its three closed enumerations,
  `getSeverityColor` and the English scanning messages.
- `storage.dfy`: local storage as a class holding a map from key to value.
- `i18n.dfy`: the translation lookup `t`, the initial language and `setLang`.
- `analyze_image.dfy`: the proxy handler as a method with early returns. It
  also holds the data-URL construction and the first-`{`-to-last-`}` extraction.
- `scan_page.dfy`: the scan screen as a class (stage, file, URL, result),
  with the payload extraction, the record merge and the capped history update.
- `history_page.dfy`: the search filter, loading and clearing the history, and
  the history cards' copy of the severity colours.
- `diagnosis_results.dfy`: the diagnosis view's four lookup tables and its cards.
- `scanning_animation.dfy`: the cyclic message index and the capped progress bar.

Several things the source gets from the platform are parameters here:

- The AI gateway is a function from the outbound call to its reply.
- `JSON.parse` is a partial function from text to an uninterpreted value.
- The file reader's result, the proxy call's outcome, `crypto.randomUUID`,
  the clock, `URL.createObjectURL` and the random progress increment are
  method arguments.
- The API key from the environment is an optional string.

## Model

| member | source | states |
|---|---|---|
| AnalyzeImage.DataUrl | supabase/functions/analyze-image/index.ts:73 | The gateway's image URL is "data:", then the MIME type or "image/jpeg" when it is absent or empty, then ";base64,", then the image; it ends with the image text. |
| AnalyzeImage.BraceMatch | supabase/functions/analyze-image/index.ts:114 | The regex matches exactly when some `{` precedes some `}`; the match runs from the first `{` to the last `}`, with no `{` before it and no `}` after it. |
| AnalyzeImage.JsonCandidate | supabase/functions/analyze-image/index.ts:115 | Without a `{` before a `}`, the whole content goes to the parser. Otherwise the parser gets exactly the regex match: the piece from the first `{` to the last `}`, which starts with `{` and ends with `}`. |
| AnalyzeImage.CandidateUnwrapsObject | supabase/functions/analyze-image/index.ts:114-115 | An object wrapped in text with no `{` before it and no `}` after it (prose, a code fence) is handed to the parser exactly. |
| AnalyzeImage.Serve | supabase/functions/analyze-image/index.ts:37-130 | OPTIONS gets 200 with no body and no gateway call. A body that is not JSON gets 500 with the parser's message. A falsy image gets 400 "No image provided" before the key is checked. A missing key gets 500 "LOVABLE_API_KEY is not configured". Otherwise exactly one call is made, carrying the key and the data URL. Gateway 429 and 402 pass through with their fixed messages. Any other non-2xx status gives 500 "AI gateway returned <status>", and an unreachable gateway gives 500 with its message. A 2xx reply whose body is not JSON gives 500 with the parser's message. A reply with no content gives 500 "No content in AI response", and an unparsable candidate gives 500 "Failed to parse diagnosis result". A 200 carries only the parsed value, unchanged. The status is always one of 200, 400, 402, 429, 500. |
| DiagnosisTypes.ParseSubjectType | src/lib/diagnosis-types.ts:7 | A raw string names a subject type exactly when it is one of the five declared names, and the variant's name is that string. |
| DiagnosisTypes.ParseConfidence | src/lib/diagnosis-types.ts:16 | A raw string names a confidence level exactly when it is one of the three declared names. |
| DiagnosisTypes.ParseSeverity | src/lib/diagnosis-types.ts:23 | A raw string names a severity exactly when it is one of the four declared names. |
| DiagnosisTypes.EnumerationsClosed | src/lib/diagnosis-types.ts:7-23 | The three enumerations have 5, 3 and 4 distinct names, and every variant's name parses back to it. |
| DiagnosisTypes.SeverityColor | src/lib/diagnosis-types.ts:53-61 | A declared severity maps to "severity-" followed by its name. Any other string maps to "severity-mild". The result is always one of four tokens. |
| DiagnosisTypes.SeverityColorInjective | src/lib/diagnosis-types.ts:54-58 | Distinct declared severities get distinct colour tokens. |
| DiagnosisTypes.ScanningMessagesInSection | src/lib/diagnosis-types.ts:40-51 | Message i is the scanning section's text for key "scanning.msg<i+1>". |
| DiagnosisTypes.ScanningMessagesAreEnglish | src/lib/diagnosis-types.ts:40-51 | Message i is the English table's text for key "scanning.msg<i+1>". |
| Translations.KeysAgree | src/lib/i18n.tsx:12-260 | The "tw" and "ee" tables define exactly the key set of the "en" table. |
| I18n.Table | src/lib/i18n.tsx:287 | Exactly the codes "en", "tw" and "ee" have a table, and each offered language's code selects that language's table. |
| I18n.Translate | src/lib/i18n.tsx:286-289 | `t(key)` gives the current language's entry when it has one. Otherwise it gives the English entry when there is one. Otherwise it gives the key itself. |
| I18n.AppCatalogConsistent | src/lib/i18n.tsx:12-260 | The app's three tables have the same keys. |
| I18n.KnownKeysNeverFallBack | src/lib/i18n.tsx:287 | With key-consistent tables, a key of the English table is answered by each language's own table, so the English fallback is never reached. |
| I18n.UnknownKeyShownVerbatim | src/lib/i18n.tsx:287 | With key-consistent tables, a key the English table lacks is shown as itself in every language. |
| I18n.AppUnknownKeyShownVerbatim | src/lib/i18n.tsx:287 | With the app's own tables, a key the English table lacks is shown as itself in every language. |
| I18n.UnknownLanguageActsAsEnglish | src/lib/i18n.tsx:287 | A current code other than "en", "tw" or "ee" translates every key exactly as "en" does. |
| I18n.InitialLanguage | src/lib/i18n.tsx:276-279 | The initial language is the stored code when it is a non-empty string, and "en" otherwise; it is never empty. |
| I18n.I18nProvider.constructor | src/lib/i18n.tsx:275-279 | Mounting the provider sets the language from what is stored under "agriscan-lang". |
| I18n.I18nProvider.SetLang | src/lib/i18n.tsx:281-284 | `setLang(l)` makes l's code current and writes the same code under "agriscan-lang", leaving every other stored key unchanged. |
| Storage.StoredHistory | src/pages/ScanPage.tsx:75 | Parsing the stored entry, or "[]" when it is missing or empty, as a history: a missing entry is the empty list, and a stored list is itself. It fails exactly for stored text that is not empty. |
| ScanPage.Payload | src/pages/ScanPage.tsx:57 | Element 1 of the data URL split on "," exists exactly when the URL has a comma. It is the text after the first comma up to the next comma or the end, and it contains no comma. |
| ScanPage.PayloadRoundTrip | src/pages/ScanPage.tsx:57 | For a comma-free MIME type and base64 text b, the payload of "data:"+mime+";base64,"+b is exactly b, and the proxy's data URL rebuilt from mime and b is the reader's URL. |
| ScanPage.Merge | src/pages/ScanPage.tsx:68-73 | The stored record takes id, timestamp and imageUrl from the client; every other field is the proxy answer's, unchanged. |
| ScanPage.WithNewest | src/pages/ScanPage.tsx:76-77 | After an unshift and a conditional pop, the new record is at index 0 and the previous entries follow in order, with at most the oldest one dropped. From at most 50 entries the length becomes min(old+1, 50); a list already longer than 50 keeps its length and is not trimmed to 50. |
| ScanPage.HistoryKeepsNewest | src/pages/ScanPage.tsx:75-78 | From a history of at most 50, any series of analyses leaves the new diagnoses newest first, then the earlier history, cut to 50 entries: the 50 most recent are kept. |
| ScanPage.ScanPage.constructor | src/pages/ScanPage.tsx:16-19 | The screen starts in the upload stage with no file, no URL and no result. |
| ScanPage.ScanPage.HandleFile | src/pages/ScanPage.tsx:26-34 | A file whose type starts with "image/" is held with its object URL, and the stage becomes preview. Any other file leaves stage, file and URL unchanged. |
| ScanPage.ScanPage.HandleDrop | src/pages/ScanPage.tsx:36-41 | The first dropped file, if there is one, is handled as a picked file. |
| ScanPage.ScanPage.Reset | src/pages/ScanPage.tsx:43-48 | From any stage: upload stage, with file, URL and result cleared. |
| ScanPage.ScanPage.AnalyzeImage | src/pages/ScanPage.tsx:50-91 | Without a held file nothing changes. Otherwise the stage first becomes scanning. The proxy receives the payload and the file's type once the file is read. A read error, a proxy error or an unreadable stored history ends in preview with nothing stored. When the file is read, the proxy answers and the stored history is a list, the analysis succeeds: it ends in results with the merged record shown and stored as the newest history entry. File and URL are kept in every case. |
| HistoryPage.SeverityColorTablesAgree | src/pages/HistoryPage.tsx:12-17 | The history cards' severity table is identical to the diagnosis view's. |
| HistoryPage.Filter | src/pages/HistoryPage.tsx:30-34 | An entry is kept exactly when the lower-cased search occurs in its lower-cased disease name or species. Every matching entry keeps all its occurrences, and the result is no longer than the history. |
| HistoryPage.FilterIsSubsequence | src/pages/HistoryPage.tsx:30 | The filtered list is a subsequence of the history, in the same relative order. |
| HistoryPage.EmptySearchKeepsAll | src/pages/HistoryPage.tsx:30-34 | An empty search keeps every entry, in order. |
| HistoryPage.FilterIdempotent | src/pages/HistoryPage.tsx:30-34 | Filtering twice with the same search equals filtering once. |
| HistoryPage.FilterIgnoresCase | src/pages/HistoryPage.tsx:30-34 | Searching for the lower-cased text gives the same list as the text as typed. |
| HistoryPage.HistoryPage.constructor | src/pages/HistoryPage.tsx:20-22 | The screen starts with an empty list and an empty search. |
| HistoryPage.HistoryPage.EmptyStateIffNoMatch | src/pages/HistoryPage.tsx:85 | The empty-state panel shows exactly when no history entry matches the search. |
| HistoryPage.HistoryPage.Load | src/pages/HistoryPage.tsx:25-28 | Mounting loads the stored history when it reads as a list. Otherwise it reports failure and the list is unchanged. |
| HistoryPage.HistoryPage.SetSearch | src/pages/HistoryPage.tsx:79 | Typing sets the search text and leaves the history alone. |
| HistoryPage.HistoryPage.ClearHistory | src/pages/HistoryPage.tsx:36-39 | Clearing removes "agriscan-history" and keeps every other stored key. The list becomes empty, so the empty state shows. |
| DiagnosisResults.Lookup | src/components/DiagnosisResults.tsx:60 | A table lookup yields a value exactly for the table's keys. |
| DiagnosisResults.SeverityKeyEntries | src/components/DiagnosisResults.tsx:13-18 | Each severity s has label key "diagnosis.severity.<s>". |
| DiagnosisResults.SeverityColorEntries | src/components/DiagnosisResults.tsx:20-25 | Each severity s has badge class "bg-severity-<s> text-white". |
| DiagnosisResults.ConfidenceEntries | src/components/DiagnosisResults.tsx:27-31 | Each confidence level c has label key "diagnosis.confidence.<c>". |
| DiagnosisResults.ConfidenceColorsInverted | src/components/DiagnosisResults.tsx:33-37 | Confidence colours run opposite to severity: low is styled as severe, moderate as moderate, high as mild. |
| DiagnosisResults.TablesCoverExactlyTheEnumerations | src/components/DiagnosisResults.tsx:13-37 | Each table's keys are exactly the declared names of its enumeration, so any other value finds nothing. |
| DiagnosisResults.LabelKeysInDiagnosisSection | src/components/DiagnosisResults.tsx:13-31 | Every label key of the two key tables is a key of the English diagnosis section. |
| DiagnosisResults.SeverityLabelIsEnglish | src/components/DiagnosisResults.tsx:13-18 | Every severity label key is defined in the English table. |
| DiagnosisResults.ConfidenceLabelIsEnglish | src/components/DiagnosisResults.tsx:27-31 | Every confidence label key is defined in the English table. |
| DiagnosisResults.SummaryShowsDeclaredValues | src/components/DiagnosisResults.tsx:60-67 | The summary card has a badge class and a label key for severity, and a class and a label key for confidence, exactly for declared values. The badge class agrees with `getSeverityColor`, and the label keys are the declared ones. |
| DiagnosisResults.WellFormedSummaryIsComplete | src/components/DiagnosisResults.tsx:60-67 | For a result whose enumeration fields hold declared names, the summary card gets both classes and both label keys. |
| DiagnosisResults.Cards | src/components/DiagnosisResults.tsx:95-107 | The professional-help card, carrying the urgency advice, appears exactly when `needsProfessional` is true. The summary and meaning cards always lead the view. |
| ScanningAnimation.MessageKeysNumbered | src/components/ScanningAnimation.tsx:7-10 | There are ten message keys, "scanning.msg1" to "scanning.msg10", in order. |
| ScanningAnimation.MessageKeysAreEnglish | src/components/ScanningAnimation.tsx:7-10 | The English text of message key i is the i-th constant scanning message. |
| ScanningAnimation.NextMessageIndex | src/components/ScanningAnimation.tsx:23 | One tick moves the index to the next message, wrapping from the last to the first; the result is always in [0, 10). |
| ScanningAnimation.TicksAdvanceModulo | src/components/ScanningAnimation.tsx:23 | n ticks from a valid index advance it by n modulo 10. |
| ScanningAnimation.TenTicksCycle | src/components/ScanningAnimation.tsx:23 | Ten ticks bring the index back to its start. |
| ScanningAnimation.ProgressStep | src/components/ScanningAnimation.tsx:26 | A progress step is p + δ when that is at most 92, and 92 otherwise. It never goes above 92. From a value within 92 it never decreases, and while the value is at most 90 it rises by at least 2. |
| ScanningAnimation.ScanningAnimation.CurrentKey | src/components/ScanningAnimation.tsx:63 | The key on screen is an English key whose text is the scanning message at the current index. |
| ScanningAnimation.ScanningAnimation.constructor | src/components/ScanningAnimation.tsx:17-18 | Both counters start at 0. |
| ScanningAnimation.ScanningAnimation.TickMessage | src/components/ScanningAnimation.tsx:22-24 | The message tick applies the cyclic step and keeps the index in [0, 10). |
| ScanningAnimation.ScanningAnimation.TickProgress | src/components/ScanningAnimation.tsx:25-27 | The progress tick applies the capped step. Progress stays in [0, 92], never decreases, and rises by at least 2 while it is at most 90. |

## Left out

- Rendering is not modelled: JSX, animation, icons, routing, toasts and the
  selected-entry detail view. They are presentation. The only UI facts kept are
  the lookup tables, the professional-help card and the history empty state.
- JSON text is not modelled. Serialisation is abstracted: storage holds a
  history list as the list itself, and any other stored text that is not empty
  fails to read as a list.
- The gateway request's model name, system prompt and message layout are out
  of scope. Only the bearer key and the image URL are part of the modelled call.
- Any HTTP method other than OPTIONS is handled as the source handles POST.
  The source does not check the method either.
- A JSON `null` body is not modelled separately. Destructuring it throws, and
  the model gives that the same 500 path as an unparsable body (`body` is a
  `Failure` carrying the message). Other JSON values that are not objects
  (numbers, strings, booleans, arrays) destructure to an absent image. They are
  the request body with no image and no MIME type, which gets 400.
- A truthy `image` or `mimeType` that is not a string is not modelled. The
  source interpolates it into the data URL as text. Both fields are optional
  strings in the model.
- A 2xx gateway body that is the JSON value `null` is not modelled separately.
  Reading `choices` from it throws, and the source answers 500 with that
  error's message. The model can only state this as a body that fails to read
  (`Replied` with a `Failure` carrying the message), the same path as a body
  that is not JSON.
- A failure to read the body of a non-2xx gateway reply (other than 429 or
  402) is not modelled. The source awaits `response.text()` before answering.
  If that read rejects, its message goes in the 500. The model always answers
  "AI gateway returned <status>".
- Logging with `console.error`, in the proxy and on the scan screen, is left
  out. It has no effect on any response or state.
- Non-string `content` values in the gateway answer are not modelled. Content is
  an optional string.
- The proxy's answer is modelled as a complete diagnosis record. The source
  spreads whatever the proxy returned and never checks fields or enumerations.
- Storage write failures, such as a full quota, are not modelled; `setItem`
  always succeeds.
- The I18n context's default value, used outside a provider, is left out.
  The app always renders inside the provider.
- Inherited object properties are left out. A key such as "constructor"
  would, in JavaScript, find a value on a table's prototype. The model treats
  the tables as plain maps.
- A history list found under the language key is read as "en". The app never
  writes one there.
- Lower-casing covers only ASCII letters, not full Unicode.
- The displayed `Math.round(progress)` is left out, and `Math.random` is a parameter.
  Progress is an exact real rather than a floating-point number.
- Timer scheduling, interval clean-up, async interleaving and concurrent
  browser tabs are left out.
- `confidencePercent` is not clamped to [0, 100] anywhere in the code. The
  proxy's system prompt only asks the model for a number between 0 and 100
  (supabase/functions/analyze-image/index.ts:19), and nothing checks the answer.
  The model follows the code: `WellFormed` states the range, and only
  `WellFormedSummaryIsComplete` assumes it.
- `confidencePercent` is an unbounded integer, while the source's field is a
  JavaScript `number`. Nothing in the core computes with it.
- HistoryPage.HistoryPage.Load: when the stored history does not read as a list,
  the source fails the page. `JSON.parse` throws in the mount effect, or a
  non-array value makes `history.filter` throw while rendering, and either
  error escapes the screen. The model instead returns `ok == false` and keeps
  the list as it was.
