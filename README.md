# Settings context — a Dafny model

This project models the settings state of the React settings context in
`src/contexts/settings-context.tsx`: the eight presentation settings (colour
preset, contrast, direction, layout, navigation colour, palette mode,
responsive font sizes, stretch) with their built-in defaults, the merge of the
host's settings object over those defaults, the `isCustom` flag, the payload
that `handleUpdate` hands to the host's `onUpdate` callback, the drawer flag
driven by `handleDrawerOpen` / `handleDrawerClose`, and `handleReset`, which
is the host's `onReset` callback itself.

Files:

- `wrappers.dfy` — module `Wrappers`: `Option`, standing for a key of a
  JavaScript object that is present or absent.
- `settings_store.dfy` — module `SettingsStore`, the pure part: `Settings`
  (all eight keys present), `PartialSettings` (any key may be absent),
  `SettingsObject` (a complete record plus the other keys a caller's object may
  carry), `DefaultSettings`, `Overlay` (object spread restricted to the
  recognised keys), `Merge`, `UpdatePayload`, `IsCustom`, and a key-by-key view
  (`Field`, `Get`, `Lookup`) in which the contracts are stated.
- `settings_provider.dfy` — module `SettingsProvider`, the stateful part: the
  published `ContextValue` and `Publish`, the fallback `DefaultContextValue`,
  the class `Provider` (fields `settings` and `openDrawer`, and ghost records
  `updates` and `resets` of the calls to `onUpdate` and `onReset`), and a
  semantics of event sequences (`Step`, `Run`) that each method of `Provider`
  is proved to follow, with lemmas about what any sequence of events does.

Modelling choices:

- A JavaScript object is split into its eight recognised keys and a map of
  its other keys (`Extras`, whose keys never name a recognised setting).
  Spread keeps both, so the model shows which operations carry other keys
  along: the effective settings keep the host's other keys, `isCustom`
  ignores them, the `onUpdate` payload drops those of the current settings
  and keeps those of the update, and the published value's own keys
  (`openDrawer`, the four handles, `isCustom`) shadow other keys of the same
  name.
- The enumerated setting types are declared in `src/types/settings`, which is
  not part of this model; those six settings are strings, so any tag is
  passed through unchanged, and the two flags are booleans.
- The TypeScript type of the provider's `settings` prop and of the argument of
  `handleUpdate` is `Settings`, whose keys callers leave out freely (the
  merge casts with `as Settings`); both are modelled as `PartialSettings`.
- `lodash.isequal` is only ever applied to two flat records of scalars, so
  deep equality is record equality; `FieldwiseEqual` proves it is key-by-key
  equality.
- A re-render with a new settings object is `Provider.Rerender`: the
  effective settings become the merge of that object, and the drawer state,
  kept by `useState`, survives. The source recomputes the merge only when the
  host passes a different object reference; the model recomputes it from the
  object's contents on every `Rerender`.

## Model

| member | source | states |
|---|---|---|
| SettingsStore.FieldwiseEqual | src/contexts/settings-context.tsx:108-122 | two complete settings records are equal exactly when every one of the eight keys agrees, which is what deep equality of the projected records amounts to |
| SettingsStore.Overlay | src/contexts/settings-context.tsx:63-66 | spreading an object over a complete record gives, for every recognised key, the object's value when present and the record's value otherwise |
| SettingsStore.Merge | src/contexts/settings-context.tsx:61-69 | with no settings object the effective settings are exactly the defaults with no other keys; with one, each key is the caller's value if present and the default otherwise, and the caller's other keys are kept |
| SettingsStore.UpdatePayload | src/contexts/settings-context.tsx:71-86 | the object passed to `onUpdate` takes each key from the update when present and otherwise from the current effective settings (not the defaults); the current settings' other keys are not carried, the update's are |
| SettingsStore.IsCustomIff | src/contexts/settings-context.tsx:108-125 | `isCustom` holds if and only if at least one of the eight recognised keys differs from its default |
| SettingsStore.IsCustomIgnoresExtras | src/contexts/settings-context.tsx:112-121 | settings that agree on the eight recognised keys have the same `isCustom`, whatever other keys they carry |
| SettingsStore.DefaultsAreNotCustom | src/contexts/settings-context.tsx:8-17 | merging no settings object, or the empty object, yields exactly the defaults, and the defaults are not customised |
| SettingsStore.MergeOfPayload | src/contexts/settings-context.tsx:61-83 | when the host passes an `onUpdate` payload back in as the provider's settings, the effective settings become exactly that payload |
| SettingsStore.EmptyUpdateResendsCurrent | src/contexts/settings-context.tsx:73-83 | an update naming no key sends the current eight settings unchanged and no other key |
| SettingsStore.DarkThenCyanScenario | src/contexts/settings-context.tsx:61-83 | settings `{ paletteMode: "dark" }` give the defaults with a dark palette and are customised; the update `{ colorPreset: "cyan" }` then sends the full record with cyan and dark and every other key at its current value |
| SettingsProvider.Publish | src/contexts/settings-context.tsx:127-137 | the published value carries the effective settings and the drawer flag, its `isCustom` is true exactly when some recognised key differs from its default, and it carries every other settings key except those its own keys shadow |
| SettingsProvider.DefaultContextIsFreshProvider | src/contexts/settings-context.tsx:35-43 | the value seen without a provider equals what a fresh provider with no settings object publishes: the defaults, the drawer closed and `isCustom` false |
| SettingsProvider.Provider.constructor | src/contexts/settings-context.tsx:52-69 | a mounted provider holds the merge of its settings object, the drawer is closed, and no callback has been called |
| SettingsProvider.Provider.Rerender | src/contexts/settings-context.tsx:61-69 | a new settings object recomputes the effective settings; the drawer flag and the callback records are unchanged |
| SettingsProvider.Provider.HandleUpdate | src/contexts/settings-context.tsx:71-86 | exactly one `onUpdate` call, with the update payload built on the held settings; the held settings, the drawer flag and the reset record are unchanged |
| SettingsProvider.Provider.HandleDrawerOpen | src/contexts/settings-context.tsx:88-96 | the drawer is open afterwards whatever it was before; settings and callback records are unchanged |
| SettingsProvider.Provider.HandleDrawerClose | src/contexts/settings-context.tsx:98-106 | the drawer is closed afterwards whatever it was before; settings and callback records are unchanged |
| SettingsProvider.Provider.HandleReset | src/contexts/settings-context.tsx:134 | exactly one `onReset` call; settings, drawer flag and the update record are unchanged |
| SettingsProvider.Provider.Value | src/contexts/settings-context.tsx:127-137 | the published value shows the held settings and drawer flag, and `isCustom` of the held settings |
| SettingsProvider.DrawerStepsIdempotent | src/contexts/settings-context.tsx:88-106 | opening twice is opening once, closing twice is closing once, and the later of an open and a close decides the flag |
| SettingsProvider.RunDrawer | src/contexts/settings-context.tsx:59-106 | after any sequence of events the drawer flag is set by the last open or close, and is its starting value when there is none: updates, resets and re-renders never move it |
| SettingsProvider.RunWithoutRerender | src/contexts/settings-context.tsx:71-86 | as long as the host does not re-render, the held settings never change, and the `onUpdate` calls are exactly one per update, in order, each built on those same held settings |
| SettingsProvider.RunResets | src/contexts/settings-context.tsx:134 | over any sequence of events `onReset` is called exactly once per reset and never otherwise |

## Left out

- React rendering, `createContext`, `SettingsContext.Provider` / `SettingsConsumer`, `children` and `PropTypes`: user-interface plumbing with no state of its own.
- Memoisation by reference (`useMemo` / `useCallback` dependency lists): the effective settings are a function of the settings object's value, so recomputing them on every `Rerender` gives the same values as long as the host never changes a settings object it has already passed in. A host that changes such an object in place and re-renders with the same reference keeps the old merge in the source; the model publishes the merge of the new contents.
- Handles kept from an earlier published value: each `handleUpdate` closes over the settings of the render that created it, so a handle kept across a re-render builds its payload on the older settings. The model treats every handle as called from the latest published value, so `HandleUpdate` always builds on the settings the provider currently holds.
- The asynchronous batching of `setState`: each drawer transition is an immediate assignment.
- What `onUpdate` and `onReset` do (persisting the settings, for one), and the no-op callbacks used when the host supplies none: the model records each call to `onUpdate` with its argument, and counts the calls to `onReset`, whether or not the host supplied a callback.
- Arguments passed to `handleReset`: it is `onReset` itself, so a consumer that hands it straight to an event handler passes the event on to `onReset`. The model assumes `handleReset` is called with no arguments, as its type `() => void` declares.
- `lodash.isequal` as a general deep-equality routine: it only ever compares two flat records of scalars here.
- A key present with the value `undefined`: object spread would copy it over the default; an absent key (`None`) is modelled, a present `undefined` is not.
- The values of keys other than the eight recognised ones are strings or booleans in this model; JavaScript allows any value there, and nothing in the settings logic inspects them.
- The tag types of the six enumerated settings (`src/types/settings` is not part of this model): strings, so no tag is rejected or checked.
