# Typocalypse core, modelled in Dafny

Typocalypse is a browser extension that adds "chaos" to web pages: a
wandering cursor, stray characters typed into text fields, and endings
appended after greeting words. This project models the part of it that makes
decisions:

- **Config store** (`lib/config.ts`, module `Config`). This is the
  `ChaosConfig` record, its defaults and the shallow object-spread merge.
  `ConfigManager` is a class with the fields `config` and `listeners`.
  Its static `instance` is the field of class `Singleton`. The module also
  has the two probability gates, `getChaosIntensity` and `shouldTrigger`.
- **Phrase dictionary** (`lib/dictionary.ts`, module `Dictionary`). This is
  the schema, the `DEFAULT_CHAOS_DICTIONARY` constant, and the documented
  defaults of a trigger's `weight` (1) and minimum `chaosLevel` (0).
- **Completion service** (`lib/llm.ts`, module `Llm`). `complete` is a total
  function from the abstract outcome of the HTTP request to a response. It
  also returns the request it would send. `getFallbackCompletion` is a
  first-match substring search over its ordered table.
- **Autocomplete script** (`contents/autocomplete.ts`, module
  `Autocomplete`). The module-level `enabled`/`chaosLevel` are fields of
  `ContentScript`. `handleAutocomplete` keeps its loop over the triggers and
  its `break`. Its guard `cfg.llmApiKey` reads a key a `ChaosConfig` never
  has, so the local `randomEnding` branch is always the one taken.
- **Ghost-typing script** (`contents/ghostTyping.ts`, module `GhostTyping`).
  This covers the character pick, the injection probability, the insertion
  at the caret with its caret-0 quirk, and the field filter.
- **Wandering cursor** (`contents/cursorChaos.ts`, module `CursorChaos`).
  This is the on/off lifecycle of the `CursorChaos` class, and the
  position that each tick computes.

Helper modules: `Wrappers` (an `Option` type), `Text` and `Dom`. `Text`
holds `toLowerCase` (ASCII and the KELVIN SIGN), `endsWith`, `includes`,
and the index `Math.floor(Math.random() * n)` picks for a draw. `Dom` holds the value,
caret, type and dispatched `input` events of a text field.

Inputs the source gets from outside become parameters:
- Every `Math.random()` call is a real draw in [0, 1).
- A storage read is an optional stored record plus a failure flag.
- A storage write is a success flag.
- `fetch` is a `FetchOutcome`: rejected, or a status with a parsed or
  unparsable body.
- Calling the listeners is the list of `Notification`s a save returns.
- DOM handles of the cursor object are booleans. What the object does to the
  page is counted in fields: style and cursor nodes, live interval timers,
  the body class and the mouse listener.

## Model

| member | source | states |
|---|---|---|
| `Text.LowerChar` | contents/autocomplete.ts:18 | an ASCII capital lowers to its small letter and the KELVIN SIGN to `k`; every other character is kept; the result is a small ASCII letter exactly when the input is one of those |
| `Text.Lower` | contents/autocomplete.ts:18 | lower-casing keeps the length and lowers each character |
| `Text.PickIndex` | lib/llm.ts:74 | `Math.floor(r * n)` for a draw in [0, 1) is a valid index below `n` |
| `Config.Merge` | lib/config.ts:45-47 | every top-level key present in the partial overrides the base, every absent key keeps the base's value; `features` is one value, replaced whole |
| `Config.Stored` | lib/config.ts:58 | the record written to storage carries every defined key of the full config, not just the partial |
| `Config.MergeNoChanges` | lib/config.ts:57 | an empty partial leaves the config as it is |
| `Config.MergeIdempotent` | lib/config.ts:57 | saving the same partial twice gives the same config as saving it once |
| `Config.LoadPartialLevel` | lib/config.ts:45-47 | a stored `{chaosLevel: 3}` loads as the defaults with only the level changed |
| `Config.ReloadAfterSave` | lib/config.ts:44-58 | merging a record the store saved over the defaults gives back exactly the saved config |
| `Config.ChaosIntensity` | lib/config.ts:82-84 | the intensity lies in [0, 1], is level/5 on [0, 5], 0 at or below 0 and 1 at or above 5 |
| `Config.IntensityMonotone` | lib/config.ts:82-84 | the intensity never decreases as the level grows |
| `Config.ShouldTrigger` | lib/config.ts:86-92 | never true at level 0 or below or for a non-positive base; on [0, 5] true iff r·5 < base·level; from level 5 on true iff r < base |
| `Config.DefaultTriggerRate` | lib/config.ts:86-92 | with the default base probability 0.1 an effect fires only on draws below 0.1, never at level 0 or below, and from level 5 on on exactly those draws |
| `Config.Without` | lib/config.ts:72 | the filtered list holds exactly the other listeners, and is no longer than before |
| `Config.WithoutConcat` | lib/config.ts:72 | filtering distributes over concatenation, so the others keep their order |
| `Config.WithoutAbsent` | lib/config.ts:72 | removing a listener that is not registered changes nothing |
| `Config.WithoutKeepsOthers` | lib/config.ts:72 | every other listener keeps its number of registrations |
| `Config.WithoutIdempotent` | lib/config.ts:71-73 | calling an unsubscribe closure twice has the effect of calling it once |
| `Config.SubscribeThenUnsubscribe` | lib/config.ts:69-74 | subscribing a new listener and calling its closure restores the list |
| `Config.ConfigManager.constructor` | lib/config.ts:32-33 | a new manager holds the defaults and no listeners |
| `Config.ConfigManager.LoadConfig` | lib/config.ts:42-53 | a stored record becomes the merge over the defaults; with nothing stored or a failed read the config is unchanged; the config is returned |
| `Config.ConfigManager.SaveConfig` | lib/config.ts:55-63 | the config becomes the merge of the partial over it even when the write fails; the full config is written; after a successful write each listener is notified once, in order, with the new config; after a failed one none is |
| `Config.ConfigManager.GetConfig` | lib/config.ts:65-67 | returns the in-memory config, with no storage access |
| `Config.ConfigManager.OnConfigChange` | lib/config.ts:69-74 | appends the listener and returns a closure for that listener |
| `Config.ConfigManager.CallUnsubscribe` | lib/config.ts:71-73 | the list loses every occurrence of the listener and nothing else |
| `Config.ConfigManager.NotifyListeners` | lib/config.ts:76-78 | one call per registered listener, in registration order, each with the current config |
| `Config.Singleton.constructor` | lib/config.ts:31 | no instance exists before the first request |
| `Config.Singleton.GetInstance` | lib/config.ts:35-40 | the first call creates a fresh default manager; every later call returns that same one |
| `Config.Singleton.GetConfig` | lib/config.ts:95-98 | loads through the single instance (created fresh and empty if needed) and returns its config; an existing instance stays the same object with the same listeners |
| `Config.Singleton.SetConfig` | lib/config.ts:100-103 | saves through the single instance, with the merge, write and notifications of `saveConfig`; an existing instance keeps its listeners, and after a successful write exactly the listeners registered before the call are notified, in order; a freshly created one has none to notify |
| `Dictionary.EffectiveWeight` | lib/dictionary.ts:7 | a missing weight means 1, a present one is used as is |
| `Dictionary.MinChaosLevel` | lib/dictionary.ts:8 | a missing minimum level means 0, a present one is used as is |
| `Dictionary.TriggerCompletions` | lib/dictionary.ts:40-118 | every trigger has exactly five completions, none empty |
| `Dictionary.TriggerKeys` | lib/dictionary.ts:40-118 | trigger keys are non-empty, lower-case and pairwise distinct |
| `Dictionary.TriggerLevels` | lib/dictionary.ts:40-118 | effective minimum levels lie in [0, 5]: "please" 2, "the" 3, every other key 0; effective weights are at least 1 |
| `Dictionary.FallbackEndings` | lib/dictionary.ts:120-131 | ten fallback endings, each beginning with "..." |
| `Dictionary.ModifierLevels` | lib/dictionary.ts:133-156 | modifiers exist exactly for levels 1 to 5, each with suffixes; only levels 3 to 5 carry transformations |
| `Llm.DecimalString` | lib/llm.ts:41 | `${n}`: a non-empty string of decimal digits that denotes `n`, one digit exactly below 10, with no leading zero |
| `Llm.RequestFor` | lib/llm.ts:21-38 | the POST goes to the service's endpoint with the header `Bearer ` followed by the API key, the model `openai/gpt-3.5-turbo`, one user message that quotes the prompt verbatim after the fixed instruction, the given `max_tokens` and temperature 1.2 |
| `Llm.HttpError` | lib/llm.ts:40-41 | the message is "HTTP " followed by `DecimalString` of the status: digits that denote it, with no leading zero |
| `Llm.FirstContained` | lib/llm.ts:72-76 | the index returned is the first table key, in table order, that occurs in the prompt; none is returned only when no key occurs |
| `Llm.FallbackCompletion` | lib/llm.ts:57-89 | the result is never empty; it is a member of the first contained key's list, or of the random endings when no key occurs |
| `Llm.Complete` | lib/llm.ts:15-55 | without an API key: no request, the fallback and no error; with one: exactly one request; a rejection, a non-2xx status or an unparsable body gives the fallback with the error message; a 2xx parsed body gives its content with no error, or the fallback when the content is missing or empty; the error is absent exactly on those two paths; content is never empty |
| `Llm.ServiceFor` | lib/llm.ts:93 | the service takes the key and endpoint of the `llm` section, "" for a missing section, key or endpoint |
| `Llm.GetLlmCompletion` | lib/llm.ts:93-97 | the result is the content and request of `complete(prompt, 20)` on that service; a request goes out exactly with a non-empty key, and is `RequestFor` that service with 20 tokens; a 2xx parsed non-empty content is returned as is; every other outcome, and a config without `llm` or without a key, gets the local fallback |
| `Llm.MatchAnywhere` | lib/llm.ts:58-74 | matching is case-insensitive substring containment: "Hello world" picks from the "hello" list |
| `Llm.FirstKeyWins` | lib/llm.ts:72-76 | a prompt containing "hello" always picks from the "hello" list, whatever later keys it also contains |
| `Llm.NoKeyRandomEnding` | lib/llm.ts:79-88 | a prompt containing no key picks one of the random endings |
| `Llm.TablesAgreeWithDictionary` | lib/llm.ts:61-86 | each fallback entry is the same key with the first three completions of the dictionary; the random endings are the first six fallback endings |
| `Autocomplete.RandomEnding` | contents/autocomplete.ts:11-13 | the pick is one of the five endings |
| `Autocomplete.Autocompleted` | contents/autocomplete.ts:15-31 | the value is unchanged or the old value verbatim followed by exactly one ending; it changes exactly when enabled, the level is not 0 and the lower-cased, untrimmed value ends with a trigger |
| `Autocomplete.DisabledNeverMutates` | contents/autocomplete.ts:16 | when disabled or at level 0 the value never changes |
| `Autocomplete.EndingNeverTriggers` | contents/autocomplete.ts:5-6 | no text followed by an ending ends with a trigger |
| `Autocomplete.NoRetrigger` | contents/autocomplete.ts:19-28 | running the handler on its own output changes nothing, whatever the draws |
| `Autocomplete.TrailingSpaceDoesNotTrigger` | contents/autocomplete.ts:18-20 | "hello " with a trailing space is left as is |
| `Autocomplete.MatchIgnoresCase` | contents/autocomplete.ts:18-26 | "Well HELLO" triggers, and the appended text follows the original case verbatim |
| `Autocomplete.KelvinSignTriggers` | contents/autocomplete.ts:18-20 | a value ending in "than", the KELVIN SIGN and "s" lowers to "thanks" and gets an ending |
| `Autocomplete.AsWrittenNeverAutocompletes` | contents/autocomplete.ts:15-44 | as written: after `updateConfig` with any config, an `input` event never changes any field's value |
| `Autocomplete.IntendedAutocompletes` | contents/autocomplete.ts:15-44 | corrected: after `updateConfig` an `input` event appends an ending exactly when the `chaoticAutocomplete` flag is on, the level is not 0 and the lower-cased value ends with a trigger |
| `Autocomplete.IntendedConfigTriggers` | contents/autocomplete.ts:41 | with `enabled` taken from the `chaoticAutocomplete` flag, "thanks" does get an ending |
| `Autocomplete.ContentScript.constructor` | contents/autocomplete.ts:8-9 | the script starts enabled at level 0 |
| `Autocomplete.ContentScript.HandleAutocomplete` | contents/autocomplete.ts:15-31 | the element's value becomes `Autocompleted` of its old value; when an ending is appended an existing caret moves to the end of the new text, otherwise the caret stays where it was |
| `Autocomplete.ContentScript.UpdateConfig` | contents/autocomplete.ts:39-44 | as written: the level is taken from the config and `enabled` becomes false |
| `Autocomplete.ContentScript.UpdateConfigIntended` | contents/autocomplete.ts:39-44 | corrected: `enabled` is the `chaoticAutocomplete` flag |
| `GhostTyping.CharClasses` | contents/ghostTyping.ts:6-7 | the 26 letters are lower-case ASCII; none of the 27 chaos characters is a letter |
| `GhostTyping.RandomChar` | contents/ghostTyping.ts:9-15 | the character is a letter or a chaos character; it is a chaos character exactly when the level is above 3 and the first draw is below 0.3, and a lower-case letter otherwise |
| `GhostTyping.ShouldInjectGhost` | contents/ghostTyping.ts:17-22 | true iff draw·250 < level, so never at level 0 or below, and below 2% up to level 5 |
| `GhostTyping.InsertPosition` | contents/ghostTyping.ts:27 | the caret when it is above 0; a missing caret or a caret at 0 means the end of the text |
| `GhostTyping.GhostEdit` | contents/ghostTyping.ts:24-35 | an injection happens exactly when enabled, the level is not 0, the draw passes and the value has at most 250 characters |
| `GhostTyping.InjectionContents` | contents/ghostTyping.ts:27-40 | the text before the position is kept, the drawn character comes next, then the rest of the text; the length grows by one and the caret is just past the new character |
| `GhostTyping.InjectionBounds` | contents/ghostTyping.ts:32-40 | an injection never yields more than 251 characters and its caret is inside the new text |
| `GhostTyping.InjectionRemovable` | contents/ghostTyping.ts:35 | deleting the character before the new caret gives back the old text |
| `GhostTyping.LowLevelsInjectLetters` | contents/ghostTyping.ts:9-15 | up to level 3 the injected character is a lower-case letter |
| `GhostTyping.CaretZeroAppends` | contents/ghostTyping.ts:27 | with the caret at 0, "abc" becomes "abca" with the caret at 4 |
| `GhostTyping.SensitiveFieldsNeverScheduled` | contents/ghostTyping.ts:51-57 | password and credit-card typed fields, and elements other than INPUT and TEXTAREA, are never scheduled |
| `GhostTyping.OrdinaryFieldsScheduled` | contents/ghostTyping.ts:51-62 | every other INPUT or TEXTAREA element is scheduled for an injection, whatever its type; with the lemma above this pins the filter `ShouldSchedule` both ways |
| `GhostTyping.ContentScript.constructor` | contents/ghostTyping.ts:4-5 | the script starts enabled at level 0 |
| `GhostTyping.ContentScript.InjectGhostChar` | contents/ghostTyping.ts:24-44 | the element gets `GhostEdit`'s text; with a selection the caret moves to the new position and one input event is dispatched; without one the caret stays absent and no event is dispatched; with no injection nothing changes |
| `GhostTyping.ContentScript.UpdateConfig` | contents/ghostTyping.ts:67-72 | `enabled` is the `ghostTyping` flag and the level is the config's |
| `CursorChaos.Offset` | contents/cursorChaos.ts:130-131 | the jitter offset lies in [-scale, scale) and is 0 when the scale is 0 |
| `CursorChaos.Jitter` | contents/cursorChaos.ts:129-134 | a jittered coordinate lies within the jitter scale of the real one, strictly below the upper bound for a positive scale, and is the real one at scale 0 |
| `CursorChaos.CursorChaos.constructor` | contents/cursorChaos.ts:10-18 | a new object is inactive, at full intensity, and holds no handle |
| `CursorChaos.CursorChaos.Init` | contents/cursorChaos.ts:24-34 | loads the config, becomes active exactly when `wanderingCursor` is on, takes the level's intensity, and registers one listener |
| `CursorChaos.CursorChaos.UpdateSettings` | contents/cursorChaos.ts:36-43 | afterwards the object is active iff enabled, the intensity is the level's in [0, 1], and when the active state does not change neither do the handles |
| `CursorChaos.CursorChaos.Start` | contents/cursorChaos.ts:45-52 | a no-op while active; otherwise acquires the style, the cursor and exactly one new interval timer |
| `CursorChaos.CursorChaos.Stop` | contents/cursorChaos.ts:54-62 | inactive, the interval cleared to null, and no style, cursor, listener or body class left |
| `CursorChaos.CursorChaos.InjectStyles` | contents/cursorChaos.ts:64-89 | appends one style element, and a second call appends none |
| `CursorChaos.CursorChaos.RemoveStyles` | contents/cursorChaos.ts:91-97 | removes the held style element, if any, and the body class |
| `CursorChaos.CursorChaos.CreateCursor` | contents/cursorChaos.ts:99-106 | appends one cursor element, sets the body class and listens, and a second call does nothing |
| `CursorChaos.CursorChaos.RemoveCursor` | contents/cursorChaos.ts:108-115 | removes the held cursor element, if any, the mouse listener and the body class |
| `CursorChaos.CursorChaos.HandleMouseMove` | contents/cursorChaos.ts:117-120 | records the real coordinates and changes nothing else |
| `CursorChaos.CursorChaos.StartChaos` | contents/cursorChaos.ts:122-139 | registers one new interval timer and keeps its id |
| `CursorChaos.CursorChaos.Tick` | contents/cursorChaos.ts:126-138 | without a cursor element nothing moves; otherwise the cursor lands within the jitter bound of the real position on both axes |

`CursorChaos.CursorChaos.Valid` is the object invariant that `Start`, `Stop`
and `UpdateSettings` keep. The object is active exactly while it holds the
style, the cursor and the interval. Each of these stands for exactly one
live page object. The body class and the mouse listener are present exactly
while active, and at most one interval timer runs.

## Left out

- Storage, `fetch`, JSON parsing and the DOM are not called. Their results
  are parameters, as described above.
- `chrome.storage.onChanged` registrations (contents/autocomplete.ts:47,
  contents/ghostTyping.ts:76) and `attachAutocomplete`'s `querySelectorAll`
  scan are not modelled: they are event wiring. The `init` calls at module
  load are not modelled either.
- Timing is not modelled: the 100–300 ms delay before a ghost injection, the
  60 fps interval, and when listeners fire.
- Async interleavings are not modelled. Each operation is one step from
  start to finish. Examples: an edit landing while `handleAutocomplete`
  awaits `getConfig`; the chain started when ghost typing re-dispatches a
  bubbling `input` event.
- `Autocomplete.ContentScript.HandleAutocomplete`: does not model the config
  reload that its `getConfig()` call causes on the single `ConfigManager`.
  That call only feeds the `cfg.llmApiKey` test, which is always false.
- A listener that throws is not modelled. In the source it would stop
  `forEach`, and `saveConfig` would swallow the error.
- `Math.random` distributions are not modelled: draws only have a range.
- Chaos levels are integers. The popup writes `parseInt` of its slider
  (popup.tsx:137), so stored levels are whole numbers or NaN. `|| 0` then
  turns NaN and 0 into 0. A fraction such as 2.5 would be kept as it is by
  `|| 0`, but the source never produces one. NaN is not modelled.
- `toLowerCase` is modelled for the ASCII letters and the KELVIN SIGN
  (U+212A), the one character that lowers to a single ASCII letter. Other
  characters are kept as they are. The only other non-ASCII character whose
  lowered form holds an ASCII letter is U+0130, which lowers to "i" followed
  by U+0307. That is exact for the autocomplete triggers: none of them
  contains U+0307, so no suffix match can involve a lowered U+0130. It is
  not exact for the completion table: see the next line.
- `Llm.FallbackCompletion`: does not model multi-character lower-casing.
  `"İ".toLowerCase()` is "i" followed by U+0307, so a prompt with U+0130
  contains the key "i" in the source. In the model it does not, because
  `Text.Lower` keeps one character per character.
- `GhostTyping.GhostEdit`: counts Dafny characters (code points), not the
  UTF-16 code units that `length`, `selectionStart` and `slice` count. For
  text outside the Basic Multilingual Plane the cap of 250, the caret and the
  insertion point differ from the source. For example, 200 emoji are 400
  code units, so the source never injects into them, but the model does.
- `complete`'s default of 50 tokens (lib/llm.ts:15) is not a separate
  constant. Its only caller, `getLLMCompletion`, always passes 20.
- A partial that sets `llm` explicitly to `undefined` is not representable.
  Unknown extra keys in a stored record are dropped.
- Floating point is not modelled: intensity, probabilities and offsets are
  exact reals.
- The style sheet text (contents/cursorChaos.ts:67-87) is not modelled:
  it is presentation only.
- The `DEFAULT_CONFIG` alias (lib/config.ts:28) is the same constant as
  `DefaultConfig`.
- The dictionary's `contextual` table, `modifiers`, `weight` and
  `chaosLevel` are modelled as data. Nothing in the modelled code reads them.
- The browser reflects `type` only for known values, so a field written as
  `type="credit-card"` reads back as "text". The model applies the filter to
  the type string as given.
- The value setter's sanitisation (a text input drops line breaks) and
  `selectionEnd` are not modelled.
- The popup UI is not part of this model (popup.tsx, popup/index.tsx).

## Findings

| source | as written | input that shows it | evidently intended | confidence | as-written member | corrected member |
|---|---|---|---|---|---|---|
| contents/autocomplete.ts:41 | `enabled = cfg.autocomplete` reads a key that `ChaosConfig` does not declare. After the first config load `enabled` is `undefined`, so the handler returns at once on every event | the default config (`chaoticAutocomplete` true, level 4) and the value "thanks": no ending is ever appended | `enabled = cfg.features.chaoticAutocomplete`, as ghost typing does with its own flag | high; not executed | `Autocomplete.ContentScript.UpdateConfig`, shown by `Autocomplete.AsWrittenNeverAutocompletes` | `Autocomplete.ContentScript.UpdateConfigIntended`, with `Autocomplete.IntendedAutocompletes` and `Autocomplete.IntendedConfigTriggers` |
