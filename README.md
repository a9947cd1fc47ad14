# TaskMate client core in Dafny

This project models the stateful core of the TaskMate client, the web and Capacitor
app of a task and shift management service. Five parts are modelled:

- **Workspace store.** This is the persisted selection of the dealership a session
  works in. It is reconciled against the user's role and the ordered list of
  dealerships the server permits (`workspace.dfy`).
- **HTTP client interceptors.** The request side injects the bearer token. The
  response side maps each failure to side effects: clearing the session,
  redirecting to the login or maintenance page, and notifying the rate limiter.
  Every failure is then rejected again unchanged (`api_client.dfy`).
- **Platform resolver and adapter cells.** The platform (native shell or browser)
  is decided by the first query and remembered. The storage adapter cell and the
  status-bar adapter cell are each filled at most once. On the web, the
  synchronous accessors fall back to an inline adapter; on native, they fail
  until the asynchronous constructor has run (`platform_detect.dfy`,
  `platform_storage.dfy`, `platform_statusbar.dfy`).
- **Persistence bridge.** It lets the zustand stores persist through the storage
  adapter. Before the native adapter exists, reads give null and writes do
  nothing. A parse failure is not caught (`storage_bridge.dfy`).
- **Preference state machines.** The theme context keeps an applied and a pending
  theme and accent colour, and writes to storage only on apply. The view-mode
  hook has a list/grid preference, migrates the legacy `'cards'` value and uses a
  width breakpoint (`theme.dfy`, `view_mode.dfy`).

Pure decisions are functions: the per-role reconciliation, the interceptor's
effects, the adapter choice, and the parsing of stored values. State that the
source updates in place is a class. Each class method is proved to leave exactly
the state its contract states; where a pure function makes the decision, that
state is the function's result. Calls into foreign code become
parameters: the native-platform probe, the token getter's current value, the
rate limiter's reply, the window width and the system dark-mode preference. The
key-to-string store behind a storage adapter is a `KeyValueStore` object passed
in explicitly.

Behaviours of the code worth noting:

- An employee's `initializeWorkspace` keeps an already-initialized selection that
  the list still permits, even when it is not the home dealership
  (`Workspace.EmployeeInitializeKeepsPermittedSelection`). Only
  `validateAndUpdateWorkspace` forces the home dealership.
- For an owner whose selection is no longer permitted, `validateAndUpdateWorkspace`
  falls back to the first listed dealership. It does not fall back to null.
- A manager or observer whose selection is null keeps null through validation.
- Three 401 failures handled one after another clear the session three times
  (`ApiClient.RepeatedUnauthorized`). Nothing collapses them.
- The adapter constructors have no in-flight guard. Only sequential calls are
  modelled.
- A parse failure in the lazy native storage rejects the read. It does not
  degrade to null.

## Model

| member | source | states |
|---|---|---|
| `Workspace.Rederive` | src/stores/workspaceStore.ts:43-70 | an employee gets the home dealership; an owner keeps a permitted prior choice and otherwise gets null; a manager or observer keeps a permitted prior choice, otherwise gets the first listed dealership, and gets null exactly when the list is empty |
| `Workspace.Initialize` | src/stores/workspaceStore.ts:25-76 | after initialization `hasInitialized` is true; an initialized store with a permitted selection, or an owner's null, is left as it is; an owner ends on null or a permitted id; a manager or observer ends on a permitted id iff the list is non-empty; an employee ends on the home dealership or on a kept, permitted earlier selection |
| `Workspace.Validate` | src/stores/workspaceStore.ts:78-102 | `hasInitialized` never changes; an employee always ends on the home dealership; for others a null selection, an empty list or a permitted selection leaves everything unchanged, and a non-permitted selection becomes the first listed dealership |
| `Workspace.InitializeIdempotent` | src/stores/workspaceStore.ts:25-76 | initializing twice with the same user and list leaves the same state as initializing once |
| `Workspace.ValidateIdempotent` | src/stores/workspaceStore.ts:78-102 | validating twice equals validating once, and the second validation calls `set` no more |
| `Workspace.ValidateCommitsOnlyOnChange` | src/stores/workspaceStore.ts:82-101 | validation calls `set` exactly when it changes the selection |
| `Workspace.ValidateAfterInitialize` | src/stores/workspaceStore.ts:25-102 | for a non-employee, validating against the list the store was just initialized with changes nothing |
| `Workspace.EmployeeStaysHome` | src/stores/workspaceStore.ts:25-87 | an employee on the home dealership stays there through any sequence of initializations and validations, whatever the lists |
| `Workspace.EmployeePinnedOnceReconciled` | src/stores/workspaceStore.ts:25-87 | a validation, or the first initialization of an uninitialized store, pins an employee to the home dealership for every later reconciliation |
| `Workspace.ManagerStaysPermitted` | src/stores/workspaceStore.ts:25-101 | a manager or observer with a concrete selection keeps one through reconciliations against non-empty lists, and it is always permitted by the latest list |
| `Workspace.OwnerAllDealershipsSurvives` | src/stores/workspaceStore.ts:29-92 | an owner's null selection survives any validation and any re-initialization of an initialized store |
| `Workspace.ManagerFallbackExample` | src/stores/workspaceStore.ts:94-101 | a manager holding 7 with permitted [3, 9] is moved to 3 |
| `Workspace.EmployeeInitializeKeepsPermittedSelection` | src/stores/workspaceStore.ts:29-39 | re-initialization keeps an employee's permitted non-home selection, and validation replaces it with the home dealership |
| `Workspace.ResetForgetsSelection` | src/stores/workspaceStore.ts:25-109 | after logout every later call behaves as on a fresh store, and the next initialization derives the selection from the role and list alone, ignoring the selection held before logout |
| `Workspace.WorkspaceStore.constructor` | src/stores/workspaceStore.ts:18-19 | a new store holds null and is not initialized |
| `Workspace.WorkspaceStore.Set` | src/stores/workspaceStore.ts:111-117 | each `set` persists exactly the two partialized fields |
| `Workspace.WorkspaceStore.SetDealership` | src/stores/workspaceStore.ts:21-23 | sets the selection, leaves `hasInitialized` unchanged and persists once |
| `Workspace.WorkspaceStore.InitializeWorkspace` | src/stores/workspaceStore.ts:25-76 | leaves the state `Initialize` gives, and persists exactly when it does not return early |
| `Workspace.WorkspaceStore.ValidateAndUpdateWorkspace` | src/stores/workspaceStore.ts:78-102 | leaves the state `Validate` gives, and persists exactly when the selection changes |
| `Workspace.WorkspaceStore.ResetWorkspace` | src/stores/workspaceStore.ts:104-109 | empties the store and persists the empty snapshot |
| `ApiClient.GetBaseUrl` | src/api/client.ts:6-15 | the base URL is the configured one when it is non-empty, else `/api/v1`; the native build warns exactly when the configured URL is missing, empty or starts with `/` |
| `ApiClient.BaseUrlSameOnBothPlatforms` | src/api/client.ts:6-15 | native and web builds use the same base URL, and only the native build warns |
| `ApiClient.ToUpper` | src/api/client.ts:75 | upper-casing keeps the length and upper-cases each ASCII letter |
| `ApiClient.UpperIsPost` | src/api/client.ts:75-79 | the upper-cased method is `POST` iff the method spells "post" in any letter case |
| `ApiClient.LoginAttemptIff` | src/api/client.ts:74-79 | a request is a login attempt iff its URL ends with `/session` and its method is "post" in any letter case |
| `ApiClient.ErrorEffects` | src/api/client.ts:58-120 | a failure triggers at most two effects, and none unless its status is 401, 429 or 503; a 403 or a network error triggers nothing |
| `ApiClient.UnauthorizedHandling` | src/api/client.ts:73-97 | a 401 clears the session, at most once, iff it is not a login attempt and a clearer is registered; it redirects to `/login` iff it is not a login attempt and the path does not contain `/login` |
| `ApiClient.MaintenanceHandling` | src/api/client.ts:60-69 | a redirect to `/maintenance` happens iff the status is 503, the body carries `maintenance_mode` and the path does not contain `/maintenance`; a 503 has no other effect |
| `ApiClient.RateLimitHandling` | src/api/client.ts:104-118 | every 429 reports the parsed retry-after to the rate limiter; the `rate-limit-error` event carrying it is dispatched iff the limiter asks for it |
| `ApiClient.AtMostOneRedirect` | src/api/client.ts:58-120 | one failure redirects at most once, and only to `/login` or `/maintenance` |
| `ApiClient.NoRedirectWhenAlreadyThere` | src/api/client.ts:65-93 | on `/login` no failure redirects to `/login`; on `/maintenance` none redirects to `/maintenance` |
| `ApiClient.Client.constructor` | src/api/client.ts:29-30 | no token getter and no session clearer are registered at start |
| `ApiClient.Client.SetAuthHelpers` | src/api/client.ts:32-38 | registers both callbacks |
| `ApiClient.Client.InterceptRequest` | src/api/client.ts:40-48 | the `Authorization` header becomes `Bearer <token>` iff a getter is registered and returns a non-empty token; otherwise the config is returned unchanged |
| `ApiClient.Client.InterceptResponse` | src/api/client.ts:54-121 | a success passes through with no effect; a failure is rejected with the original error after exactly the effects `ErrorEffects` lists |
| `ApiClient.RepeatedUnauthorized` | src/api/client.ts:81-93 | three successive 401s off the login page clear the session three times and redirect three times |
| `PlatformDetect.PlatformDetector.constructor` | src/platform/detect.ts:4 | the platform starts unresolved |
| `PlatformDetect.PlatformDetector.Resolve` | src/platform/detect.ts:6-11 | the reported platform is the remembered one, or native iff the probe says so |
| `PlatformDetect.PlatformDetector.GetPlatform` | src/platform/detect.ts:6-11 | the first call remembers the probe's answer; every later call returns the remembered platform without probing |
| `PlatformDetect.PlatformDetector.IsNative` | src/platform/detect.ts:13-15 | true iff the resolved platform is native |
| `PlatformDetect.PlatformDetector.IsWeb` | src/platform/detect.ts:17-19 | true iff the resolved platform is web |
| `PlatformDetect.ExactlyOneOf` | src/platform/detect.ts:6-19 | `isNative` and `isWeb` always disagree, even if the probe would change its answer |
| `PlatformStorage.CreateAccess` | src/platform/storage/index.ts:6-18 | the cached adapter when there is one, else the native adapter iff the platform is native, and never the inline one |
| `PlatformStorage.SyncAccess` | src/platform/storage/index.ts:20-34 | the cached adapter when there is one, else the inline localStorage adapter on the web; an error exactly on native with nothing cached |
| `PlatformStorage.StorageCell.constructor` | src/platform/storage/index.ts:4 | the cell starts empty |
| `PlatformStorage.StorageCell.CreatePlatformStorage` | src/platform/storage/index.ts:6-18 | returns and caches what `CreateAccess` chooses; with an adapter cached it neither changes the cell nor queries the platform |
| `PlatformStorage.StorageCell.GetPlatformStorage` | src/platform/storage/index.ts:20-34 | returns what `SyncAccess` chooses and caches a returned adapter; on failure the cell stays empty |
| `PlatformStorage.WebAccessThenCreate` | src/platform/storage/index.ts:6-30 | on the web, after a synchronous access the asynchronous constructor returns the inline adapter |
| `PlatformStorage.NativeAccessBeforeAndAfterCreate` | src/platform/storage/index.ts:6-33 | on native, synchronous access fails before the asynchronous constructor and then returns the native adapter |
| `PlatformStorage.KeyValueStore.GetItem` | src/platform/storage/index.ts:26 | yields the stored string, or null when the key is absent |
| `PlatformStorage.KeyValueStore.SetItem` | src/platform/storage/index.ts:27 | stores the value under the key and changes no other key |
| `PlatformStorage.KeyValueStore.RemoveItem` | src/platform/storage/index.ts:28 | deletes the key and changes no other key |
| `PlatformStorage.SetThenGet` | src/platform/storage/index.ts:26-27 | reading a key after writing it yields the written value |
| `PlatformStorage.RemoveThenGet` | src/platform/storage/index.ts:26-28 | reading a key after removing it yields null |
| `PlatformStatusBar.CreateAccess` | src/platform/statusbar/index.ts:6-18 | the cached adapter when there is one, else the native class iff the platform is native, and never the inline no-op |
| `PlatformStatusBar.SyncAccess` | src/platform/statusbar/index.ts:20-33 | the cached adapter when there is one, else the inline no-op adapter on the web; an error exactly on native with nothing cached |
| `PlatformStatusBar.StatusBarCell.constructor` | src/platform/statusbar/index.ts:4 | the cell starts empty |
| `PlatformStatusBar.StatusBarCell.CreateStatusBarAdapter` | src/platform/statusbar/index.ts:6-18 | returns and caches what `CreateAccess` chooses; with an adapter cached nothing changes |
| `PlatformStatusBar.StatusBarCell.GetStatusBarAdapter` | src/platform/statusbar/index.ts:20-33 | returns what `SyncAccess` chooses and caches a returned adapter; on failure the cell stays empty |
| `PlatformStatusBar.CellIsSetOnce` | src/platform/statusbar/index.ts:7-21 | once the cell holds an adapter, both accessors return it and the cell never changes |
| `StorageBridge.Decode` | src/platform/storage/zustand.ts:19-22 | an absent key reads as null; a stored string reads as its parse, and a parse failure rejects |
| `StorageBridge.DecodeEncoded` | src/platform/storage/zustand.ts:19-32 | with inverse codecs, decoding a serialized value yields that value |
| `StorageBridge.CreateZustandStorage` | src/platform/storage/zustand.ts:47-52 | the lazy native storage iff the platform is native, JSON over localStorage otherwise |
| `StorageBridge.LazyGetItem` | src/platform/storage/zustand.ts:12-23 | resolves null without reading storage when no adapter is available; otherwise gives `Decode` of the stored string |
| `StorageBridge.LazySetItem` | src/platform/storage/zustand.ts:25-33 | writes the serialized value under the name when an adapter is available, and is a no-op otherwise |
| `StorageBridge.LazyRemoveItem` | src/platform/storage/zustand.ts:35-43 | deletes the name when an adapter is available, and is a no-op otherwise |
| `StorageBridge.SetThenGetItem` | src/platform/storage/zustand.ts:12-33 | with inverse codecs and an adapter available, reading back a written value yields it; without an adapter, the write is dropped and the read is null |
| `StorageBridge.RemoveThenGetItem` | src/platform/storage/zustand.ts:12-43 | reading a name after removing it yields null |
| `ThemeContext.StoredTheme` | src/context/ThemeContext.tsx:46-49 | a stored theme is accepted iff it is one of light, dark or system, and then names the accepted theme |
| `ThemeContext.StoredAccent` | src/context/ThemeContext.tsx:50-53 | a stored accent is accepted iff it is in the five valid accent colours, and then names the accepted colour |
| `ThemeContext.StoredNamesRoundTrip` | src/context/ThemeContext.tsx:46-53 | every theme and accent name written on apply is accepted on hydration as the same value |
| `ThemeContext.ComputeIsDark` | src/context/ThemeContext.tsx:60-65 | for a non-system theme, dark iff the theme is dark; for 'system', the system preference decides |
| `ThemeContext.StatusBarStyleFor` | src/context/ThemeContext.tsx:79-84 | the status bar is styled dark iff the page is dark, on `#171717`, else on `#f5f5f5` |
| `ThemeContext.StatusBarFollowsTheme` | src/context/ThemeContext.tsx:60-84 | under light or dark the status-bar style does not depend on the system preference; under system it takes the dark colour iff the system prefers dark |
| `ThemeContext.ThemeProvider.constructor` | src/context/ThemeContext.tsx:33-37 | theme and pending theme start as system, accent and pending accent as blue |
| `ThemeContext.ThemeProvider.HasPendingChanges` | src/context/ThemeContext.tsx:145 | true iff the pending theme differs from the applied one |
| `ThemeContext.ThemeProvider.HasAccentPendingChanges` | src/context/ThemeContext.tsx:146 | true iff the pending accent differs from the applied one |
| `ThemeContext.ThemeProvider.Hydrate` | src/context/ThemeContext.tsx:40-56 | a whitelisted stored theme sets both theme values, a valid stored accent sets both accent values, and anything else changes nothing |
| `ThemeContext.ThemeProvider.SetTheme` | src/context/ThemeContext.tsx:114-116 | changes only the pending theme and writes nothing |
| `ThemeContext.ThemeProvider.ApplyTheme` | src/context/ThemeContext.tsx:119-122 | the pending theme becomes current and is written under `theme_preference`; no theme change is pending afterwards |
| `ThemeContext.ThemeProvider.ResetPendingTheme` | src/context/ThemeContext.tsx:125-127 | the pending theme returns to the applied one, storage is untouched and no theme change is pending |
| `ThemeContext.ThemeProvider.SetAccentColor` | src/context/ThemeContext.tsx:130-132 | changes only the pending accent and writes nothing |
| `ThemeContext.ThemeProvider.ApplyAccentColor` | src/context/ThemeContext.tsx:135-138 | the pending accent becomes current and is written under `accent_color`; no accent change is pending afterwards |
| `ThemeContext.ThemeProvider.ResetPendingAccentColor` | src/context/ThemeContext.tsx:141-143 | the pending accent returns to the applied one, storage is untouched and no accent change is pending |
| `ThemeContext.AppliedChoiceSurvivesRestart` | src/context/ThemeContext.tsx:114-138 | an applied theme and accent are what a new provider hydrates from the same storage, with nothing pending |
| `ResponsiveViewMode.StoredMode` | src/hooks/useResponsiveViewMode.ts:28-34 | a stored `'cards'` or `'grid'` restores grid, `'list'` restores list, and any other value restores nothing |
| `ResponsiveViewMode.StoredModeRoundTrip` | src/hooks/useResponsiveViewMode.ts:28-44 | a mode written by `setViewMode` restores that mode |
| `ResponsiveViewMode.ViewModeHook.constructor` | src/hooks/useResponsiveViewMode.ts:15-22 | the preference starts as the default mode and the screen counts as not mobile |
| `ResponsiveViewMode.ViewModeHook.WithDefaults` | src/hooks/useResponsiveViewMode.ts:16-18 | the defaults are list, grid on mobile and a 768-pixel breakpoint |
| `ResponsiveViewMode.ViewModeHook.EffectiveViewMode` | src/hooks/useResponsiveViewMode.ts:64-65 | the shown mode is the mobile mode on a narrow screen, else the preference |
| `ResponsiveViewMode.ViewModeHook.Hydrate` | src/hooks/useResponsiveViewMode.ts:25-35 | without a non-empty key nothing changes; with one, a recognised stored value replaces the preference |
| `ResponsiveViewMode.ViewModeHook.SetViewMode` | src/hooks/useResponsiveViewMode.ts:38-44 | sets the preference and writes it under the key iff a non-empty key is given |
| `ResponsiveViewMode.ViewModeHook.CheckMobile` | src/hooks/useResponsiveViewMode.ts:47-54 | the screen is mobile iff the width is below the breakpoint, and the preference is never changed |
| `ResponsiveViewMode.ChoiceSurvivesRemount` | src/hooks/useResponsiveViewMode.ts:38-65 | a mode chosen on a narrow screen is still shown as the mobile mode, yet a new mount with the same key restores the chosen mode |

## Left out

- The rate-limit manager is not part of this model. This covers `setRateLimited`, `parseRetryAfter` and the deadline bookkeeping. The limiter's reply on a 429 (the parsed retry-after hint and whether to notify) is an input.
- Concurrency is not modelled. The adapter constructors await between the empty check and the assignment, so concurrent constructions are not collapsed. Only sequential calls are modelled, and identity under concurrent calls is not claimed.
- The boot sequence in `src/main.tsx` is not modelled: awaiting both adapters, then rehydrating all stores before the first render.
- The native plugin wrappers `native.storage.ts` and `native.statusbar.ts` are not modelled, nor the no-op `web.statusbar.ts`. `web.storage.ts` is not part of this model. Every storage adapter is taken to read and write a key-to-string store (`KeyValueStore`).
- zustand's `createJSONStorage` (the web branch of `createZustandStorage`) is not modelled, nor the persist middleware's version wrapper and merge. Only the platform selection is modelled. JSON itself is a pair of caller-supplied codec functions.
- Browser plumbing is not modelled: `matchMedia` (the system preference is an input), DOM class and attribute changes, event listeners, and the call that pushes the style to the status bar.
- The theme provider and the view-mode hook obtain storage through `getPlatformStorage`, which throws on native before initialization. The model passes them the storage directly and does not model that failure.
- Navigation is recorded as an effect. The current path is an input of each failure and is not updated by a recorded redirect, because assigning `location.href` does not change the path within the same turn.
- The token getter is represented by the value it returns at request time.
- The request interceptor's mutation of the config object in place is modelled as returning an updated value.
- The interceptor's error-pass-through on the request side (`src/api/client.ts:49-51`) is not modelled.
- Console and debug logging are not modelled, including the 403 message.
- The axios instance settings (default JSON headers, 30-second timeout) are configuration and are not modelled.
- ApiClient.ToUpper: upper-cases ASCII letters only, where `toUpperCase` follows full Unicode case mapping. Methods are ASCII in practice.
- Only the four roles of the user type are modelled. Any other role string would follow the manager rule.
