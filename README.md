# DockPin cursor-clamping engine, in Dafny

DockPin is a macOS status-bar app that keeps the Dock on the displays the user
allows. It installs a session-wide event tap on pointer motion. When the cursor
reaches the bottom edge of a display where the Dock is not allowed, it moves the
cursor a few points up, so the Dock is never revealed there.

This project models the engine behind that behaviour:

- `DockMonitor` (`Monitor.DockMonitor`): its settings, its geometry cache of
  blocked screens, the event-tap lifecycle, and the per-event clamp decision.
- The menu actions of `AppDelegate` (`App.AppDelegate`) that drive the monitor,
  and the launch sequence.

Modules, leaves first:

- `Wrappers`: Option.
- `Modifiers`: `ModifierOption`, its raw codes and `cgFlag`.
- `ScreenGeometry`: screens, the blocked-screen cache, `currentDockScreen`.
- `ClampPolicy`: the clamp decision as functions, with its lemmas.
- `Persistence`: the defaults store and the save/restore encoding.
- `Monitor`: the `DockMonitor` class.
- `App`: the `AppDelegate` class.

Modelling choices:

- Coordinates (`CGFloat`) are exact `real`s.
- Display ids are integers in `0 .. 2^32-1`.
- An event's modifier flags are a set of single-bit flags, so `contains` is set membership.
- The OS is reached only through inputs:
  - a `Layout`: the connected screens in OS order, each with id, frame and visible frame, plus the primary display's height;
  - `tapCreated`: whether `CGEvent.tapCreate` returns a tap;
  - `trusted`: the accessibility answer at launch;
  - a `UserDefaults` object holding a map from key to value.
- The installed tap is reduced to what the monitor can observe: an optional handle with an enabled bit, and an optional run-loop source.

How the code behaves, reproduced as written:

- At launch, `restoreState` sets `isEnabled` directly. The `startLocking` call that follows returns at its guard, so a restored "enabled" launch installs no tap and builds no cache (`App.AppDelegate.ApplicationDidFinishLaunching`).
- A store without the modifier key restores as "None", not Option. `integer(forKey:)` gives 0, and 0 is the valid code of `.none`, so the `?? .option` fallback never applies (`Persistence.AbsentCodeRestoresNoModifier`). The app's help text (Sources/AppDelegate.swift:238) says the override key is Option by default; the model follows the code.
- The code keeps the allowed set non-empty only in `toggleAllow`, and there regardless of whether locking is active. `screensChanged` can empty the set. So can `toggleEnabled` when no Dock screen is detected: it then starts locking with every screen blocked. The app's help text (Sources/AppDelegate.swift:241) says at least one display must stay checked, without exception; the model follows the code.
- `pickModifier` changes `overrideModifier` but not the resolved `overrideFlag`. The new choice takes effect at the next cache refresh.
- A failed `startLocking` in `toggleEnabled` keeps the seeded Dock screen in memory but does not save it.

## Model

| member | source | states |
|---|---|---|
| Modifiers.RawValue | Sources/DockMonitor.swift:6-11 | every choice has a code in 0..4, and only "None" has code 0 |
| Modifiers.FromRawValue | Sources/DockMonitor.swift:6-11 | `ModifierOption(rawValue:)` succeeds exactly for 0..4, and it inverts `RawValue` |
| Modifiers.RawValueRoundTrip | Sources/DockMonitor.swift:6-11 | decoding a choice's code gives the choice back |
| Modifiers.CgFlag | Sources/DockMonitor.swift:23-31 | only "None" resolves to no flag (never bypass); every other choice resolves to one of the four modifier masks |
| Modifiers.CgFlagInjective | Sources/DockMonitor.swift:23-31 | distinct choices resolve to distinct flags |
| ScreenGeometry.ConnectedIds | Sources/AppDelegate.swift:362 | the id set of the connected screens holds exactly their ids |
| ScreenGeometry.BlockedScreens | Sources/DockMonitor.swift:104-113 | the cache has at most one entry per connected screen |
| ScreenGeometry.BlockedScreensMembers | Sources/DockMonitor.swift:104-113 | the cache holds the flipped bounds (`cgLeft = minX`, `cgRight = maxX`, `cgBottom = primaryH - minY`) of every screen that is not allowed, and nothing else; it is empty exactly when every screen is allowed |
| ScreenGeometry.BlockedScreensAppend | Sources/DockMonitor.swift:104-113 | the cache of a concatenated screen list is the concatenation of the caches |
| ScreenGeometry.BlockedScreensOrder | Sources/DockMonitor.swift:104-113 | each screen contributes exactly its own entry, in screen order, when it is not allowed, and nothing when it is |
| ScreenGeometry.CurrentDockScreen | Sources/DockMonitor.swift:190-195 | returns the first screen whose visible frame starts more than 10 points above its frame, or None exactly when no screen does |
| ClampPolicy.Nudged | Sources/DockMonitor.swift:176-180 | the nudged cursor keeps x, lies outside the screen's trigger band, and is above the original position |
| ClampPolicy.Clamp | Sources/DockMonitor.swift:170-184 | the walk keeps x, and either leaves the location unchanged or nudges it for a screen that triggers |
| ClampPolicy.ClampFirstMatch | Sources/DockMonitor.swift:172-180 | the first screen with `cgLeft <= x < cgRight` and `cgBottom-5 <= y <= cgBottom+2` decides: `y = cgBottom-7`, x kept; later screens are not consulted |
| ClampPolicy.ClampNoMatch | Sources/DockMonitor.swift:182-184 | when no blocked screen triggers, the location is unchanged |
| ClampPolicy.ClampMovesIffTriggered | Sources/DockMonitor.swift:172-184 | the location changes exactly when some blocked screen triggers |
| ClampPolicy.FirstTrigger | Sources/DockMonitor.swift:172-176 | when a screen triggers, there is a first triggering screen in cache order |
| ClampPolicy.ClampIdempotent | Sources/DockMonitor.swift:172-184 | with side-by-side screens, processing a clamped location again leaves it where it is |
| ClampPolicy.ProcessedLocation | Sources/DockMonitor.swift:156-168 | x is always kept; suspension signals and a disabled monitor pass the event through |
| ClampPolicy.OverrideBypasses | Sources/DockMonitor.swift:166-168 | holding the chosen override modifier passes the event through wherever the cursor is |
| ClampPolicy.UnheldOverrideClamps | Sources/DockMonitor.swift:163-184 | a motion event reaching an enabled monitor whose override flag is unset or not held is clamped against the cache |
| ClampPolicy.NoModifierNeverBypasses | Sources/DockMonitor.swift:166-168 | with "None" chosen, an enabled monitor clamps whatever flags are held |
| ClampPolicy.ClampExamples | Sources/DockMonitor.swift:172-180 | a 1920-wide screen with bottom edge 1080: (500,1078) goes to (500,1073); (500,1050) and (2000,1078) stay |
| Persistence.RestoredAllowed | Sources/DockMonitor.swift:72-74 | a stored integer list becomes exactly the allowed set; without one, the set is left as it was |
| Persistence.RestoredModifier | Sources/DockMonitor.swift:76 | a stored code in 0..4 restores as that choice, and any other code as Option |
| Persistence.RestoreAfterSave | Sources/DockMonitor.swift:64-78 | restoring from what was saved reproduces allowed set, enabled flag and modifier, whatever was in memory |
| Persistence.UnknownCodeRestoresOption | Sources/DockMonitor.swift:76 | a stored modifier code outside 0..4 restores as Option |
| Persistence.AbsentCodeRestoresNoModifier | Sources/DockMonitor.swift:76 | a store without the modifier key restores "None" |
| Persistence.AbsentListKeepsAllowed | Sources/DockMonitor.swift:72-74 | a missing list key leaves the allowed set unchanged |
| Persistence.AbsentFlagRestoresDisabled | Sources/DockMonitor.swift:75 | a missing flag restores as disabled |
| Persistence.IdList | Sources/DockMonitor.swift:65 | the saved list holds each allowed id exactly once |
| Monitor.DockMonitor.constructor | Sources/DockMonitor.swift:47-60 | a new monitor: nothing allowed, Option, disabled, no tap, empty cache, flag `maskAlternate` |
| Monitor.DockMonitor.SaveState | Sources/DockMonitor.swift:64-69 | the store then holds the current triple under its three keys, the ids as a list without repeats, and every other key is unchanged |
| Monitor.DockMonitor.RestoreState | Sources/DockMonitor.swift:71-78 | the triple becomes the one decoded from the store, and the flag is re-resolved; tap and cache are untouched |
| Monitor.DockMonitor.StartLocking | Sources/DockMonitor.swift:84-93 | when enabled, returns true and changes nothing; otherwise refreshes flag and cache, and enables and returns true exactly when the tap is created, leaving no tap on failure |
| Monitor.DockMonitor.StopLocking | Sources/DockMonitor.swift:95-99 | a no-op when disabled; otherwise clears `isEnabled` and both tap handles |
| Monitor.DockMonitor.RefreshScreenCache | Sources/DockMonitor.swift:102-115 | the cache becomes the blocked screens of the layout, and the flag is `overrideModifier.cgFlag` |
| Monitor.DockMonitor.InstallEventTap | Sources/DockMonitor.swift:120-146 | on success holds an enabled tap and its main-run-loop source; on failure changes nothing |
| Monitor.DockMonitor.RemoveEventTap | Sources/DockMonitor.swift:148-153 | afterwards neither a tap nor a run-loop source is held |
| Monitor.DockMonitor.SuspendTapByOS | Sources/DockMonitor.swift:157-158 | the OS disables a held tap, the suspension that the signal handled by `ProcessEvent` reports |
| Monitor.DockMonitor.ProcessEvent | Sources/DockMonitor.swift:156-185 | returns the same event; its location becomes `ProcessedLocation` of the old one; a suspension signal re-enables a held tap |
| App.AppDelegate.constructor | Sources/AppDelegate.swift:8 | the delegate owns a fresh monitor in its initial state: nothing allowed, disabled, Option with flag `maskAlternate`, no tap or source, empty cache |
| App.AppDelegate.ApplicationDidFinishLaunching | Sources/AppDelegate.swift:12-33 | the restored triple is in place, and no tap is installed and the cache is untouched, even when restored as enabled |
| App.AppDelegate.ToggleEnabled | Sources/AppDelegate.swift:263-281 | enabled: stops (no tap left), keeps cache and flag, and saves; disabled: seeds an empty set with the Dock screen, re-resolves flag and cache, then starts, holding an enabled tap and saving only if the tap is created |
| App.AppDelegate.ToggleAllow | Sources/AppDelegate.swift:283-300 | removing the last allowed id changes nothing; otherwise exactly that id flips, the state is saved, and cache and flag are refreshed exactly when enabled (kept otherwise); a non-empty set stays non-empty |
| App.AppDelegate.PickModifier | Sources/AppDelegate.swift:302-305 | the modifier becomes the tag's choice (Option for an unknown tag) and is saved; flag and cache are unchanged |
| App.AppDelegate.QuitApp | Sources/AppDelegate.swift:356-359 | locking ends: disabled, with no tap handle |
| App.AppDelegate.ScreensChanged | Sources/AppDelegate.swift:361-367 | the allowed set becomes its intersection with the connected ids, cache and flag are refreshed exactly when enabled (kept otherwise), and the state is saved |

## Left out

- Tap creation and removal (`CGEvent.tapCreate`, `tapEnable`, run-loop sources, the event mask) are OS calls. They appear only as the `tapCreated` input and the observable handle state.
- Monitor.DockMonitor.RemoveEventTap: the `tapEnable(false)` and run-loop detach just before the handles are released are not modelled, since nothing observable remains of them.
- The C callback and its `Unmanaged` back-pointer (Sources/DockMonitor.swift:200-209) are foreign-function plumbing; `ProcessEvent` is called directly.
- Monitor.DockMonitor.ProcessEvent: the returned `Unmanaged<CGEvent>?` is modelled as the event itself, since the code never returns nil.
- Cross-thread visibility of `blockedScreens` and `overrideFlag` is not modelled. The tap runs on the main run loop, so the model treats all calls as sequential.
- The accessibility check and prompt (`AXIsProcessTrustedWithOptions`) are OS permission calls. The launch answer is the `trusted` input. The prompt after a failed start has no effect on the modelled state.
- Menus, the status icon, help window, alerts and display icons are presentation only.
- `toggleStartup` and `isLoginItemEnabled` are a thin wrapper over the login-item service.
- `NSApp.terminate` in `quitApp` ends the process and is outside the model.
- `NSScreen.displayID` is a lookup in a foreign dictionary. Screens carry their id directly, so its fallback to 0 is not modelled.
- App.AppDelegate.ToggleAllow: the menu tag is taken as a display id directly. Tags come from display ids, so the `CGDirectDisplayID(Int)` conversion cannot trap there.
- Monitor.DockMonitor.RestoreState: it requires every stored id to fit a display id, because the Swift conversion traps on anything else.
- The defaults store's coercion of strings and floating-point values to booleans and integers is not modelled. The store holds integer lists, booleans and integers only.
- `CGFloat` rounding is out of scope; coordinates are exact reals.
