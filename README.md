# Hydrogen Music: appearance stores and the lyric-visualizer audio environment

This project models three small pieces of stateful logic from the Hydrogen Music front end and proves properties of them in Dafny.

- **The lyric-visualizer audio environment** (`src/utils/lyricVisualizerAudio.js`). There is one environment record for the whole page. It is kept on the global object under the fixed property `__hydrogenLyricVisualizerAudioEnv__`. The first access creates it with an absent audio context, an absent analyser, `analyserConnected = false` and an empty source cache. Every later access returns that same object, unchanged. Module `LyricVisualizerAudio` models the global object as class `GlobalScope`, whose nullable field `envSlot` is that property, and the record as class `AudioEnv`.
- **The clamping appearance store** (`src/store/appearance.js`). It is a Pinia store `'appearance'` with six fields. `setEnabled` and `setApplyToPlayPageOnly` store the truthiness of their argument. `setImage` stores its data URL, or `''` when the argument is falsy. The numeric setters clamp `Number(v) || 0`: blur to [0, 30], brightness to [0.2, 1.8] and opacity to [0, 1]. `hydrate` reads `app.appearance` from local storage and merges the parsed record over the defaults. If nothing is stored, it leaves the state alone. If reading or parsing throws, it resets to the defaults. `persist` writes the whole state. This is module `StoreAppearance`.
- **The unclamped appearance store** (`src/stores/appearance.js`). It has the same store id, fields and storage key. Its setters assign their argument verbatim. Its `hydrate` resets to the defaults both when nothing is stored and on an error. Its `persist` writes an explicit six-field projection. This is module `StoresAppearance`, kept separate from the other store on purpose.

Shared definitions:

- `JsValues` holds the JavaScript semantics the stores rely on: ToBoolean, `||`, and `Math.max`/`Math.min` on numbers with infinities and NaN.
- `AppearanceRecord` holds the six-field record, a parsed storage record in which each key is present or absent, and the object spread `{ ...defaults, ...parsed }`.

Each store is a class whose methods update its fields. Each method is specified against a function of the old state: `Apply` for the setters and `Hydrated` for `hydrate`. Local storage is not code of the store, so `hydrate` receives what reading the key yields as a `Lookup`: `Missing`, `Unparsable` or `Parsed(record)`. `persist` returns the key and record it writes. Serialisation is taken to be the identity.

To state properties of use over time, each store module also has a `Session`: the store's state together with what storage holds under the key. A session runs a sequence of setter calls, `hydrate` and `persist`. The clamping store's bounds are proved to be an invariant of such sessions. Unsaved setter calls are proved to behave differently in the two stores on reload: the clamping store keeps them when nothing is stored, while the unclamped store always discards them.

One behaviour of the clamping store worth knowing: its `hydrate` does not clamp. A stored record with out-of-range numbers is loaded as it is (`HydrateLoadsUnclampedBlur`). The bounds therefore survive a load exactly when every numeric key present in the stored record is in range; nothing stored and unparsable text keep them too (`HydrateInRangeIff`, `RunKeepsInRange`).

## Model

| member | source | states |
|---|---|---|
| JsValues.Truthy | src/store/appearance.js:37 | `!!v` is false exactly for undefined, null, false, 0, NaN and the empty string |
| JsValues.Or | src/store/appearance.js:40 | `Or(v, d)` is one of its operands: `v` when `v` is truthy, and truthy exactly when either operand is |
| JsValues.MathMax | src/store/appearance.js:46 | `Math.max` is NaN iff an argument is NaN, and otherwise is the argument that is at least the other |
| JsValues.MathMin | src/store/appearance.js:46 | `Math.min` is NaN iff an argument is NaN, and otherwise is the argument that is at most the other |
| AppearanceRecord.Overlay | src/store/appearance.js:22 | the spread of a parsed record over a base: each field is the stored value when its key is present and the base value otherwise |
| AppearanceRecord.Snapshot | src/store/appearance.js:31 | the serialised state has all six keys and, spread over any base, loads back as exactly that state |
| AppearanceRecord.OverlaySnapshot | src/store/appearance.js:22 | spreading a serialised record over any base gives that record back; the serialised record has every key |
| StoreAppearance.Clamp | src/store/appearance.js:46 | the clamp of `Number(v)`, with a falsy number read as 0, is always within [lo, hi]; it is v when v lies in range and the nearer bound otherwise (infinities included); a falsy number gives the clamp of 0 |
| StoreAppearance.DefaultState | src/store/appearance.js:5-12 | the defaults (enabled=false, image='', blur=0, brightness=1, applyToPlayPageOnly=false, opacity=1) lie within every setter's bounds |
| StoreAppearance.Apply | src/store/appearance.js:36-58 | a setter call changes only the field it writes, and keeps the bounds when they held before |
| StoreAppearance.Hydrated | src/store/appearance.js:17-28 | with a parsed record, each field is the stored value if present and the default otherwise; with nothing stored the state is unchanged; on a parse error the state is the defaults |
| StoreAppearance.NumericSetters | src/store/appearance.js:45-58 | after setBlur, setBrightness and setOpacity the field lies in [0,30], [0.2,1.8] and [0,1]; an in-range number is stored as given; a falsy input stores 0, 0.2 and 0 |
| StoreAppearance.CoercingSetters | src/store/appearance.js:36-44 | setEnabled and setApplyToPlayPageOnly store the truthiness of the argument; setImage stores '' for a falsy argument and the string otherwise; clearImage stores '' |
| StoreAppearance.SetterIdempotent | src/store/appearance.js:37-57 | calling a setter again with the value it stored leaves the state unchanged |
| StoreAppearance.PersistHydrateRoundTrip | src/store/appearance.js:22-31 | persist followed by hydrate restores the state and leaves storage as persist wrote it |
| StoreAppearance.HydrateInRangeIff | src/store/appearance.js:17-28 | from an in-range state, hydrate yields an in-range state iff every stored numeric key present is in range |
| StoreAppearance.HydrateLoadsUnclampedBlur | src/store/appearance.js:22 | a stored blur of 100 is loaded as 100: hydrate does not clamp |
| StoreAppearance.RunKeepsInRange | src/store/appearance.js:17-58 | if the state and storage are in range, they stay in range over any sequence of setter calls, hydrates and persists |
| StoreAppearance.PageLoadKeepsInRange | src/store/appearance.js:5-15 | a store starting from the defaults, over storage holding nothing, garbage or in-range values, stays in range for ever |
| StoreAppearance.SettersLeaveStorage | src/store/appearance.js:36-58 | setter calls never change what is stored |
| StoreAppearance.ReloadAfterUnsavedChanges | src/store/appearance.js:19-26 | after unsaved setter calls, hydrate discards them when something is stored and keeps them when nothing is |
| StoreAppearance.AppearanceStore.constructor | src/store/appearance.js:5-15 | a new store holds the defaults, which are in range |
| StoreAppearance.AppearanceStore.AssignAll | src/store/appearance.js:22 | assigning a complete record makes the state that record |
| StoreAppearance.AppearanceStore.Hydrate | src/store/appearance.js:17-28 | the new state is `Hydrated(old state, lookup)` |
| StoreAppearance.AppearanceStore.Persist | src/store/appearance.js:29-35 | writes under 'app.appearance' a record with every key, from which hydrate restores the current state whatever state it starts from |
| StoreAppearance.AppearanceStore.SetEnabled | src/store/appearance.js:36-38 | enabled becomes the truthiness of the argument; nothing else changes |
| StoreAppearance.AppearanceStore.SetImage | src/store/appearance.js:39-41 | image becomes the data URL, or '' when it is falsy; nothing else changes |
| StoreAppearance.AppearanceStore.ClearImage | src/store/appearance.js:42-44 | image becomes ''; nothing else changes |
| StoreAppearance.AppearanceStore.SetBlur | src/store/appearance.js:45-48 | blur becomes the clamp into [0,30]; nothing else changes |
| StoreAppearance.AppearanceStore.SetBrightness | src/store/appearance.js:49-52 | brightness becomes the clamp into [0.2,1.8]; nothing else changes |
| StoreAppearance.AppearanceStore.SetApplyToPlayPageOnly | src/store/appearance.js:53-55 | applyToPlayPageOnly becomes the truthiness of the argument; nothing else changes |
| StoreAppearance.AppearanceStore.SetOpacity | src/store/appearance.js:56-59 | opacity becomes the clamp into [0,1]; nothing else changes |
| StoresAppearance.DefaultValues | src/stores/appearance.js:3-10 | (by definition) the defaults are enabled=false, image='', blur=0, brightness=1, applyToPlayPageOnly=false, opacity=1 |
| StoresAppearance.Apply | src/stores/appearance.js:45-65 | a setter call changes only the field it writes |
| StoresAppearance.Hydrated | src/stores/appearance.js:17-29 | with a parsed record, the defaults overridden key by key; with nothing stored or on an error, every field reset to its default, whatever the state was |
| StoresAppearance.SettersVerbatim | src/stores/appearance.js:45-65 | (by definition) each setter stores its argument unchanged, without clamping, and leaves the other fields alone; clearImage stores '' |
| StoresAppearance.PersistHydrateRoundTrip | src/stores/appearance.js:22-38 | persist followed by hydrate restores all six fields |
| StoresAppearance.SetterSurvivesReload | src/stores/appearance.js:22-65 | a setter call followed by persist and hydrate leaves the state the setter produced |
| StoresAppearance.SettersLeaveStorage | src/stores/appearance.js:45-65 | setter calls never change what is stored |
| StoresAppearance.ReloadDiscardsUnsavedChanges | src/stores/appearance.js:17-29 | after unsaved setter calls, hydrate always gives what it would have given before them |
| StoresAppearance.AppearanceStore.constructor | src/stores/appearance.js:13-15 | a new store holds the defaults |
| StoresAppearance.AppearanceStore.AssignAll | src/stores/appearance.js:22 | assigning a complete record makes the state that record |
| StoresAppearance.AppearanceStore.Hydrate | src/stores/appearance.js:17-29 | the new state is the defaults overridden by a parsed record, or the defaults otherwise, whatever the old state |
| StoresAppearance.AppearanceStore.Persist | src/stores/appearance.js:30-44 | writes under 'app.appearance' exactly the six fields with their current values, the same record as `Snapshot` of the state, from which hydrate restores the state |
| StoresAppearance.AppearanceStore.SetEnabled | src/stores/appearance.js:45-47 | enabled becomes the argument; nothing else changes |
| StoresAppearance.AppearanceStore.SetImage | src/stores/appearance.js:48-50 | image becomes the argument; nothing else changes |
| StoresAppearance.AppearanceStore.ClearImage | src/stores/appearance.js:51-53 | image becomes ''; nothing else changes |
| StoresAppearance.AppearanceStore.SetBlur | src/stores/appearance.js:54-56 | blur becomes the argument; nothing else changes |
| StoresAppearance.AppearanceStore.SetBrightness | src/stores/appearance.js:57-59 | brightness becomes the argument; nothing else changes |
| StoresAppearance.AppearanceStore.SetApplyToPlayPageOnly | src/stores/appearance.js:60-62 | applyToPlayPageOnly becomes the argument; nothing else changes |
| StoresAppearance.AppearanceStore.SetOpacity | src/stores/appearance.js:63-65 | opacity becomes the argument; nothing else changes |
| LyricVisualizerAudio.AudioEnv.constructor | src/utils/lyricVisualizerAudio.js:3-8 | a new environment has no audio context, no analyser, analyserConnected false and an empty source cache |
| LyricVisualizerAudio.GlobalScope.constructor | src/utils/lyricVisualizerAudio.js:1 | before any access the global property is unset |
| LyricVisualizerAudio.GlobalScope.GetLyricVisualizerAudioEnv | src/utils/lyricVisualizerAudio.js:10-16 | an empty slot is filled with a fresh default environment; afterwards the slot holds the returned object; an existing environment is returned as the same object with all its fields unchanged; only the slot is written |
| LyricVisualizerAudio.TwoAccesses | src/utils/lyricVisualizerAudio.js:12-15 | two successive accesses return the identical object, which is the one already in the slot if there was one |

## Left out

- Local storage and JSON are foreign I/O. `hydrate` receives the outcome of reading the key (`Lookup`). `persist` returns the key and record instead of writing them. A write that throws (quota exceeded, likely with a large data URL in `image`) is only logged by the source, and storage then keeps its old item; the model's `persist` step always replaces it.
- `console.error` logging is left out.
- Pinia's `defineStore` registration and reactivity are left out. Each store is one object of its class. The store id `'appearance'` is kept only as a constant.
- Stored records are typed: each of the six keys is absent or holds a value of the field's type. A stored key holding a value of another type (a string blur, a `null`) is not modelled, and neither are keys other than the six. The object spread would copy those extra keys onto the state.
- The `Number(v)` coercion table is not modelled. The numeric setters of `src/store/appearance.js` receive the resulting JavaScript number (finite, an infinity or NaN). An argument whose `Number()` is NaN ('abc', undefined, a plain object) arrives as NaN; `null`, `''`, `false` and `[]` arrive as 0 and `true` as 1. The sign of zero is not kept.
- BigInt and Symbol arguments are left out of the truthiness model.
- StoreAppearance.AppearanceStore.SetImage: requires a string or falsy argument. A truthy argument that is not a string would be stored as it is, and the typed `image` field cannot hold it.
- StoresAppearance.AppearanceStore.SetEnabled: the unclamped store's setters take arguments of the field's type. In the source they store any value verbatim, including ill-typed ones. The same holds for SetImage, SetBlur, SetBrightness, SetApplyToPlayPageOnly and SetOpacity of that store.
- `src/stores/appearance.js` persists an explicit projection, while `src/store/appearance.js` persists the whole `$state`. With typed six-field records the two payloads coincide: `StoresAppearance.AppearanceStore.Persist` builds its payload field by field and proves it equal to `Snapshot` of the state, which `src/store/appearance.js` persists directly.
- The choice between `window` and `globalThis` is not modelled: `GlobalScope` is one abstract global object.
- A global property under the key that already holds some other value is not modelled. A truthy non-environment value would be returned as it is, and another falsy value would be overwritten. The slot is either unset (null) or an environment.
- The audio-source cache is a `map` from element to source node. The reclamation semantics of `WeakMap` are not modelled.
- Creating the AudioContext and analyser, binding sources, setting `analyserConnected` and reading frequency data do not happen in `src/utils/lyricVisualizerAudio.js`, so they are not modelled.
- `src/store/playerStore.js` and `src/store/appearanceStore.js` are not part of this model. They are state declarations and plain assignments persisted by a plugin.
- StoreAppearance.PersistHydrateRoundTrip: assumes the write in `persist` succeeds; when `setItem` throws, storage keeps its old item and `hydrate` loads that instead.
- StoresAppearance.PersistHydrateRoundTrip: assumes the write in `persist` succeeds; when `setItem` throws, storage keeps its old item and `hydrate` loads that instead. The numeric fields are finite reals: the source stores NaN and ±Infinity verbatim, `JSON.stringify` writes them as `null`, and the round trip then gives `null`.
- StoresAppearance.SetterSurvivesReload: the same two assumptions: the write succeeds, and the numeric argument is finite (for NaN or ±Infinity the source reloads `null`).
- StoresAppearance.AppearanceStore.Persist: the numeric fields are finite reals, so `hydrate` restores them; for NaN or ±Infinity the source's JSON payload holds `null` and the round trip gives `null`.
