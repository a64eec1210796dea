# flawfix-web: chart configuration and global store, in Dafny

This project models two small pieces of logic from the flawfix-web dashboard.
Both are written with the proofs about them.

- **Damaged-package chart** (`src/components/overview/DamagedPackageDiagram.tsx`).
  `DamagedPackage` copies each package record and gives the copy a `fill`
  colour. The colour comes from a nine-colour palette, indexed by a running
  counter modulo nine. `dataToChart` then folds the coloured records into a
  chart configuration keyed by `item[key]`. Each entry holds the record's
  label field and its `fill`, and later records overwrite earlier ones.
  Module `ChartConfig`: the fold and the colouring are loops (methods).
  Each is proved against a specification function or a direct statement of
  the result.
- **Global store** (`src/zustand/globalStore.ts`). The store holds the
  session, the user's organizations and the selected organization.
  `setActiveOrganization(id)` selects the first organization with that id,
  or none. `initializeStore` keeps at most one store in a module-level cache.
  When a store is cached, it merges the newly preloaded state into the cached
  state, and the preloaded fields win. It fills the cache only on the client.
  Module `GlobalStore`: the state updates are functions; the store and the
  module-level cache are classes.
  `typeof window === "undefined"` becomes the parameter `isServer`.

`Wrappers` defines `Option`, whose `None` stands for JavaScript's `undefined`.

## Model

| member | source | states |
|---|---|---|
| `ChartConfig.DataToChart` | src/components/overview/DamagedPackageDiagram.tsx:45-59 | The loop's result is the configuration obtained by writing every item's entry under its key in list order (`Chart`). |
| `ChartConfig.ChartKeys` | src/components/overview/DamagedPackageDiagram.tsx:50-58 | The configuration's keys are exactly the values `item[key]` of the input items. An undefined value becomes the key "undefined". No other keys appear, so an empty list gives an empty configuration. |
| `ChartConfig.ChartLastWriteWins` | src/components/overview/DamagedPackageDiagram.tsx:51-56 | When no later item has the same key, the entry under an item's key is that item's: its label field as `text` and its `fill` as `color`. So the last writer wins. |
| `ChartConfig.PaletteIndex` | src/components/overview/DamagedPackageDiagram.tsx:65 | The palette index taken for the n-th item is in bounds, and it is congruent to n modulo the palette length. |
| `ChartConfig.WithFill` | src/components/overview/DamagedPackageDiagram.tsx:63-66 | The spread `{ ...item, fill }` keeps every original field other than `fill`, adds no field besides `fill`, and sets `fill` to the given colour. |
| `ChartConfig.PaletteDistinct` | src/components/overview/DamagedPackageDiagram.tsx:26-36 | The nine palette colours are pairwise different. |
| `ChartConfig.ColorsRepeat` | src/components/overview/DamagedPackageDiagram.tsx:26-36 | Two items receive the same colour if and only if their positions are congruent modulo nine. Colours therefore repeat with period exactly the palette length. |
| `ChartConfig.ColorPackages` | src/components/overview/DamagedPackageDiagram.tsx:62-66 | The coloured list has the input's length and order. Item n is item n of the input with `fill` set to palette colour n mod 9. The counter `i` ends equal to the number of items. |
| `ChartConfig.DamagedPackageConfig` | src/components/overview/DamagedPackageDiagram.tsx:61-67 | The configuration `DamagedPackage` builds has one key per distinct `component` of the input packages. Each entry holds that component as label and the colour of the last package with that component. |
| `GlobalStore.FindOrganization` | src/zustand/globalStore.ts:31 | `find` yields nothing exactly when no organization has the id. Otherwise it yields an organization with that id, and every organization before it has a different id. |
| `GlobalStore.WithActiveOrganization` | src/zustand/globalStore.ts:28-32 | After selecting `id`, the session and organizations are unchanged. The selection is the first organization of the list with that id, or undefined exactly when none has it, even if one was selected before. |
| `GlobalStore.MergeState` | src/zustand/globalStore.ts:42-45 | The merged state takes the preloaded session and organizations. It takes the preloaded selection when present and keeps the current selection only when the preloaded state has none. |
| `GlobalStore.SelectionSurvivesNavigation` | src/zustand/globalStore.ts:28-45 | A selection made in the cached store is still present after merging a preloaded state that has no selection. |
| `GlobalStore.Store.constructor` | src/zustand/globalStore.ts:19-34 | `initStore` makes a store whose state is the preloaded state. |
| `GlobalStore.Store.SetActiveOrganization` | src/zustand/globalStore.ts:28-32 | The store's new state is the old state with the selection replaced as `WithActiveOrganization` says. |
| `GlobalStore.StoreCache.constructor` | src/zustand/globalStore.ts:17 | The cache starts empty. |
| `GlobalStore.StoreCache.InitializeStore` | src/zustand/globalStore.ts:36-56 | Every call returns a new store. With no cached store, its state is exactly the preloaded state. With a cached store, its state is the cached state overridden field-wise by the preloaded state. On the server the cache ends empty. On the client the cache ends holding the returned store. Only the cache variable changes. |

## Left out

- The dependency-graph risk propagation in `src/pages/[organizationSlug]/projects/[projectSlug]/assets/[assetSlug]/dependency-graph.tsx` is not part of this model.
- The JSX markup of `DamagedPackage`, the commented-out pie-chart variant and all other components and pages are rendering with no logic to state. In the live `DamagedPackage`, the configuration `d` is computed but never rendered. `DamagedPackageConfig` models its computation anyway.
- Record field values are modelled as strings. JavaScript's coercion of other non-string keys (`null`, numbers) to property keys is not modelled. The only caller keys by the string field `component`.
- `DataToChart`, `ChartKeys`, `ChartLastWriteWins`: the configuration and the records are plain maps. JavaScript's plain-object property semantics are not modelled: writing the key `"__proto__"` calls the prototype setter instead of adding a key, and reading a field that a record lacks but `Object.prototype` has (`constructor`, `toString`) is not `undefined`. The only caller keys and labels by package component names.
- `DataToChart`: items are immutable values in the model. "dataToChart never modifies its items" therefore holds by construction and is not a stated contract.
- `GlobalStore.StoreCache.InitializeStore`: the declared type of `preloadedState` is a full state, so the model always treats it as present. A falsy `preloadedState`, which an untyped page prop could still supply, is not modelled. With it goes the path where `store ?? initStore(...)` keeps and returns the cached store itself instead of a new one.
- `MergeState`: a preloaded field that is present with the value `undefined` is not distinguished from an absent one. Preloaded state arrives as JSON, which has no `undefined`.
- `useHydrate` (`JSON.parse`, React `useMemo`) and the internals of zustand's `create` and `set` are library code. The store is a plain holder of its state. The `setActiveOrganization` closure kept in the state is the method `Store.SetActiveOrganization`.
- `Organization` and `Session` carry placeholder fields. Their definitions are not part of this model, and only `Organization.id` is inspected.
- `FormatDate`, which relies on JavaScript `Date` parsing and the local time zone, and the redirect in `src/pages/index.tsx` are outside the modelled core.
