# English-to-Bengali dictionary: word resolution, in Dafny

This project models the core of the dictionary backend in `backend/server.py`:
the `/api/translate` handler `translate_word` and the `/api/dictionary/stats`
handler `get_dictionary_stats`.

A translate request goes through these steps:

1. Normalise the text with `lower()` then `strip()`.
2. Reject an empty result with HTTP 400.
3. Look the word up in the fixed fifteen-word seed dictionary `OFFLINE_DICTIONARY`.
4. On a miss, ask a generative model for a JSON entry.
5. If the model answers, build a record with a fixed default for every absent field.
6. If it does not answer, build a placeholder record.

Offline and AI records are inserted into the `translations` collection. The
placeholder is returned as a success but never stored. The statistics endpoint
counts that collection.

Effects are inputs and outputs of pure functions:

- The model's parsed answer is an `Option<Payload>` argument. `Payload` is a map
  from keys to a string or a list of strings.
- The word the model was asked about comes back as `Outcome.query`. `None` means
  the model was not called.
- The collection is an append-only `seq<Translation>`, passed in and returned.
- The uuid and `utcnow()` drawn for a record are a `Stamp` argument.

`Resolve` takes the dictionary as a parameter. It is `ResolveWord` applied to `Normalize(request)`: `ResolveWord` is the handler once the key is fixed, with the raw request kept only to be echoed. `TranslateWord` is the handler
itself: `Resolve` applied to the seed `OfflineDictionary`.

Modules, one per concern:

- `Text` (text.dfy): `str.lower()` and `str.strip()`. `strip()` is two index scans, as CPython does it: one forward from the start (`Lead`) and one backward from the end (`Trail`). The result is the slice between them.
- `Records` (records.dfy): the `Translation` record.
- `Seed` (seed.dfy): the seed dictionary.
- `Payload` (payload.dfy): the model's answer and the field defaults.
- `Translate` (translate.dfy): the handler.
- `Stats` (stats.dfy): the statistics.
- `Wrappers` (wrappers.dfy): `Option` and `Result`.

The model follows the code as written:

- There is no read of stored records before the model is called.
- Records are inserted, not upserted, so a word resolved twice is stored twice.
- Provenance tags are `offline`, `ai` and `fallback`.
- The model returning nothing gives a placeholder success, not an error.
- Internal white space is not collapsed.
- The reply's `word` is the raw request text, not the normalised key.

## Model

| member | source | states |
|---|---|---|
| Text.IsSpaceListed | backend/server.py:261 | the white space `strip()` removes is exactly Python's `str.isspace` set: the twenty-nine characters U+0009-U+000D, U+001C-U+0020, U+0085, U+00A0, U+1680, U+2000-U+200A, U+2028, U+2029, U+202F, U+205F and U+3000 |
| Text.Lower | backend/server.py:261 | `lower()` keeps length and position, turns each capital `A`-`Z` into its own small letter, leaves every other character as it is, so no upper-case letter is left and white space stays exactly where it was |
| Text.LowerFixed | backend/server.py:261 | `lower()` leaves a text with no upper-case letter unchanged |
| Text.Lead | backend/server.py:261 | the left scan of `strip()` passes only white space and stops at the first character that is not white space, or at the end |
| Text.Trail | backend/server.py:261 | the right scan of `strip()` passes only white space, never goes below where the left scan stopped, and stops just after a character that is not white space |
| Text.Strip | backend/server.py:261 | `strip()` leaves a text with no white space at either end, sitting inside the input between two white-space runs, and empty exactly when the input is all white space |
| Text.StripPadded | backend/server.py:261 | padding any text with no surrounding white space by white space on both sides and stripping gives that text back, so `strip()` is fully determined by the property above |
| Text.Normalize | backend/server.py:261 | the lookup key is lower case with no surrounding white space, is empty exactly when the request is all white space, and is the lowered request minus white-space padding |
| Text.NormalizeIdempotent | backend/server.py:261 | normalising a key again changes nothing |
| Text.NormalizePaddedVariant | backend/server.py:261 | requests differing only in letter case and surrounding white space get the same key |
| Seed.SeedSize | backend/server.py:30-182 | the seed dictionary holds exactly the fifteen listed words, all distinct |
| Seed.SeedKeysNormalized | backend/server.py:30-182 | every seed key is non-empty and already normalised, so a normalised query can reach each entry |
| Seed.HelloSeeded | backend/server.py:32-41 | the seeded greeting `hello` is rendered `হ্যালো / নমস্কার`, an interjection |
| Records.TagsDistinct | backend/server.py:277-310 | the three provenance tags are distinct strings, so a query on the tag selects one path's records |
| Payload.Truthy | backend/server.py:287 | `if ai_result:` takes an answer exactly when it has at least one key |
| Payload.TextField | backend/server.py:289-294 | `get(key, default)` for a string field gives the default when the key is absent and the value when it is a string; a list there is a validation failure |
| Payload.ListField | backend/server.py:293 | `get("examples", [])` gives `[]` when absent and the list when it is a list; a single string there is a validation failure |
| Payload.FromPayload | backend/server.py:288-296 | an answer's `bengali`, `pronunciation`, `definition`, `part_of_speech` and `examples` are taken when present; absent ones default to `অনুবাদ পাওয়া যায়নি`, `""`, `No definition available`, `unknown` and `[]`; a present field of the wrong kind fails the record |
| Payload.ExtraKeysIgnored | backend/server.py:290-294 | keys other than those five do not affect the record |
| Translate.Resolve | backend/server.py:258-317 | empty input gives 400 and touches nothing; the model is asked, with the normalised word, exactly on a non-empty miss; every success echoes the raw request; the only other error is a wrong-kind field, which gives 500; offline and AI replies are appended exactly once and nothing else is written; provenance matches the path taken |
| Translate.TranslateWord | backend/server.py:258-285 | the deployed handler: empty input gives 400; a request hits the seed exactly when its key is one of the fifteen seeded words, and then it is answered offline with that entry's text, without a model call, and stored once; any other non-empty request is put to the model with its key |
| Translate.PlaceholderEntry | backend/server.py:302-311 | the placeholder quotes the normalised word in the Bengali text, in the definition and in its one example, with an empty pronunciation and part of speech `unknown` |
| Translate.ResolveWord | backend/server.py:263-313 | for an already normalised word: empty gives 400; a key of the dictionary is answered offline with no model call; a miss asks the model with that word; a success echoes the raw request; a wrong-kind field gives 500; offline and AI replies are appended once and nothing else is written |
| Translate.OfflineHit | backend/server.py:268-282 | a dictionary hit returns the entry's fields verbatim, tagged `offline`, with no model call, and appends exactly that record |
| Translate.AiDefaults | backend/server.py:284-300 | on a miss with a non-empty answer each field is the answer's value or its fixed default, the record is tagged `ai`, and exactly that record is appended |
| Translate.PlaceholderFallback | backend/server.py:302-313 | on a miss with no answer (or an empty one) the reply is a successful `fallback` placeholder built from the normalised word, and the collection is unchanged |
| Translate.NoCaching | backend/server.py:284-300 | the same unknown word asked twice consults the model twice and stores two `ai` records |
| Translate.EchoOnly | backend/server.py:270-311 | after normalisation the raw request text only affects the reply's `word` field |
| Translate.VariantsResolveAlike | backend/server.py:261-313 | case and padding variants of a request take the same path, ask the same query, write alike, and give the same reply apart from the echoed `word` |
| Translate.VariantHits | backend/server.py:261-282 | with normalised keys, a key typed in any case and padded with white space hits its entry |
| Translate.SeededVariantHits | backend/server.py:261-282 | case and padding variants of every seed word resolve offline to that word's entry |
| Translate.PaddedHelloIsOffline | backend/server.py:261-282 | ` \tHELLO ` resolves offline to `হ্যালো / নমস্কার` without a model call |
| Translate.StoreNotRead | backend/server.py:263-313 | the handler never reads the collection: the reply, the model query and the appended records do not depend on what was stored before, and what was stored is kept |
| Translate.AnswerUnusedWithoutQuery | backend/server.py:263-285 | when the model is not called its answer cannot change the outcome |
| Stats.CountAi | backend/server.py:335 | the number of `ai` records never exceeds the number of records |
| Stats.CountAiMatchesTags | backend/server.py:335 | that number is the multiplicity of the tag string `ai` among the stored tags |
| Stats.CountAiAppend | backend/server.py:335 | counts over appended collections add up |
| Stats.Statistics | backend/server.py:329-342 | `total_translations` is the collection size, `offline_words` is 15, `ai_enhanced_translations` is the number of stored records tagged `ai` (so at most `total_translations`), and `total_unique_words` is `offline_words` plus `ai_enhanced_translations` |
| Stats.StatsAfterResolve | backend/server.py:333-341 | one request adds one translation on an offline or AI reply, adds one to the AI and unique-word counts on an AI reply only, and changes nothing on a placeholder or an error |
| Stats.DuplicatesCountedTwice | backend/server.py:335-341 | the same unknown word answered twice by the model raises `total_unique_words` by two |

## Left out

- Text.Lower: only the ASCII letters `A`-`Z` are case-mapped. Python's `lower()` also maps non-ASCII upper-case letters, and a few of them expand to more than one character; full Unicode case mapping is not modelled.
- Payload.FromPayload: answer values are strings or lists of strings only. Numbers, booleans, `null` and nested objects are coerced or rejected depending on the pydantic version, so they are not modelled. An answer that parses to a JSON value other than an object is not modelled either: a non-empty one fails at `.get` and gives 500, and an empty one (`[]`, `""`, `0`, `false`) gives the placeholder, which `None` already models.
- The model call inside `get_ai_translation` (lines 208-251) is not modelled: the prompt, the LLM client, JSON parsing and exception swallowing. The call is an oracle whose answer is an argument of `Resolve`.
- MongoDB I/O failures are not modelled. An `insert_one` that raises would give 500 (lines 315-317). A failing count gives the `{"error": ...}` reply of the statistics handler (lines 343-345).
- `get_recent_translations` (lines 319-327) is not modelled: its `sort` and `limit` semantics belong to MongoDB and motor, and its ordering key is the opaque timestamp.
- The uuid and `utcnow()` values are not generated. They are the `Stamp` argument.
- FastAPI routing, CORS, logging, the shutdown hook, the root endpoint, the `/status` endpoints and uvicorn startup are not modelled.
- Concurrency between simultaneous requests is not modelled. Each request is one sequential step on the collection.
