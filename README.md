# photo-sort core, modelled in Dafny

photo-sort is a Tauri desktop app for sorting photographs. It has three pieces of logic, and this project models and proves properties of each of them:

- **The card stack** (`src/_components/card-stack.tsx`, module `Cards`). A `currentIndex` moves through a stack of cards in response to key presses. Right arrow or `d`/`D` selects *save*; left arrow or `a`/`A` selects *discard*. An accepted press starts a spring animation that flies the top card off. The animation's `onStart` moves the index: up by one for save, down by one for discard. Its `onRest` calls `onSave` or `onDiscard` with the card captured at key-down, then snaps the card back to rest. The render step shows the cards from `currentIndex` on, stacked with a 4-pixel offset per position and a decreasing `zIndex`. It shows an end-of-stack message when `currentIndex >= cards.length`.
- **The photo grid** (`src/_components/photo-display.tsx`, module `Photos`). `formatFileSize` picks B/KB/MB/GB by repeated division by 1024. `loadPhotos` drives the `loading`/`error`/`photos` state around the backend call. `handlePhotoClick` selects a photo and forwards it. The render picks a spinner, an error panel, an empty-directory message or the grid, in that order.
- **The backend commands** (`src-tauri/src/lib.rs`, module `Commands`). `greet` builds a greeting. `load_photos_from_directory` rejects an invalid path and reports a failed directory read. Otherwise it keeps the listing's entries whose lower-cased extension is one of eight image extensions, in listing order, and silently skips entries it cannot use.

Two small helper modules support these: `Wrappers` (Option, Result) and `Ascii` (ASCII case folding, used for both `toLowerCase` and `to_lowercase`).

Both React components are modelled the same way. Pure transition functions act on a snapshot datatype: `Cards.Session` holds `currentIndex`, the pose tag, the pending flight and the log of callbacks made; `Photos.DisplayState` holds the state fields plus the photos forwarded to `onPhotoSelect`. A class (`Cards.CardStack`, `Photos.PhotoDisplay`) holds the same state in fields. Each method is proved to perform exactly its transition. The lemmas are about the transition functions, including the invariant that any sequence of events keeps (`Cards.SessionValid`).

The model follows the code, including where the code departs from what a careful sorting UI would be expected to do:

- It has no in-flight guard. A key press during a running animation is accepted (`Cards.NoInFlightGuard`, `Cards.TwoSavesBeforeAnyRest`).
- The index moves when the animation starts, not when it finishes.
- Discard moves the index backwards rather than forwards.
- Save is refused on the last card. As a result, the end-of-stack message can only appear for an empty stack (`Cards.EndMessageOnlyWhenEmpty`).

## Model

| member | source | states |
|---|---|---|
| `Ascii.Lower` | src/_components/card-stack.tsx:35 | case folding keeps the length and lower-cases each character independently |
| `Cards.KeyAction` | src/_components/card-stack.tsx:35-59 | the decision a key selects, right-hand test first: "ArrowRight" saves, "ArrowLeft" discards, no-decision keys fold to neither "d" nor "a"; its exact meaning is given by `Cards.KeyActionCases` |
| `Cards.KeyActionCases` | src/_components/card-stack.tsx:35-59 | save is selected exactly by "ArrowRight", "d", "D"; discard exactly by "ArrowLeft", "a", "A"; every other key selects nothing |
| `Cards.Target` | src/_components/card-stack.tsx:39-76 | the rest pose is exactly x=0, rot=0, scale=1; the right flight goes to +innerWidth with positive rotation, the left one to -innerWidth with negative rotation, both shrunk |
| `Cards.OnKey` | src/_components/card-stack.tsx:30-80 | no card at `currentIndex` or an unmapped key changes nothing; save starts only below the last index, discard only above 0; an accepted press captures `cards[currentIndex]` and sets the pose, leaving the index and callbacks unchanged |
| `Cards.OnStart` | src/_components/card-stack.tsx:43-68 | starting a pending flight moves the index by +1 for save or -1 for discard and marks the flight started; otherwise nothing changes |
| `Cards.Fired` | src/_components/card-stack.tsx:46-70 | at most one callback fires: `onSave` for save and `onDiscard` for discard, with the captured card, and only when that prop was passed |
| `Cards.OnRest` | src/_components/card-stack.tsx:46-77 | the rest of a started flight appends its callback, clears the flight and returns the pose to rest, leaving the index alone |
| `Cards.InitValid` | src/_components/card-stack.tsx:17-26 | the mounted state (index 0, at rest) satisfies the invariant |
| `Cards.StepValid` | src/_components/card-stack.tsx:29-85 | every key, start and rest event keeps the invariant: the index stays in range, a pending flight's captured card is the one at the old index, and every callback card comes from an allowed position |
| `Cards.RunValid` | src/_components/card-stack.tsx:29-85 | any sequence of events keeps that invariant |
| `Cards.IndexInRange` | src/_components/card-stack.tsx:17-68 | from mount, with a non-empty stack, `0 <= currentIndex <= cards.length - 1` after any events |
| `Cards.CallbacksNeverTakeTheEnds` | src/_components/card-stack.tsx:36-70 | from mount, every saved card sits at a position before the last one and every discarded card at a position after the first one, so the last card is never saved |
| `Cards.SaveCycle` | src/_components/card-stack.tsx:35-55 | save key, start and rest raise the index by one, call `onSave` once with the card at the old index, and leave the card at rest |
| `Cards.DiscardCycle` | src/_components/card-stack.tsx:59-78 | discard key, start and rest lower the index by one, call `onDiscard` once with the card at the old index, and leave the card at rest |
| `Cards.NoInFlightGuard` | src/_components/card-stack.tsx:29-85 | a key press while a flight is pending is still accepted and replaces the pending flight |
| `Cards.TwoSavesBeforeAnyRest` | src/_components/card-stack.tsx:35-45 | with three cards, two save presses each followed by a start reach index 2 before any callback has run |
| `Cards.InterruptedCardNeverReported` | src/_components/card-stack.tsx:35-55 | with three cards, save, start, save, start, rest reaches index 2 with only `onSave(b)` called: the first card is passed without a callback |
| `Cards.Render` | src/_components/card-stack.tsx:89-114 | the rendered stack has one view per card from `currentIndex` on and none for the cards before it; each view's `isTop`, `stackOffset` and `zIndex` are stated by `Cards.RenderedCards`, `Cards.TopCardAndOffsets` and `Cards.ZIndexDecreasing` |
| `Cards.RenderFrom` | src/_components/card-stack.tsx:89-125 | the mapped cards are exactly the views of the positions from `max(index, currentIndex)` on, in order |
| `Cards.RenderedCards` | src/_components/card-stack.tsx:89-95 | a card is rendered iff its index is at least `currentIndex`; the k-th rendered card is `cards[currentIndex + k]` |
| `Cards.TopCardAndOffsets` | src/_components/card-stack.tsx:94-95 | the first rendered card is the only top card and sits at `currentIndex`; the k-th rendered card has `stackOffset` 4k |
| `Cards.ZIndexDecreasing` | src/_components/card-stack.tsx:114 | `zIndex` strictly decreases down the rendered stack and is positive, so the top card is highest |
| `Cards.ShowsEndMessage` | src/_components/card-stack.tsx:127 | for a non-negative index the end-of-stack message shows exactly when no card is rendered; `Cards.EndMessageOnlyWhenEmpty` says when that happens |
| `Cards.EndMessageOnlyWhenEmpty` | src/_components/card-stack.tsx:127 | from mount, the end-of-stack message shows after any events exactly when the stack is empty |
| `Cards.CardStack.constructor` | src/_components/card-stack.tsx:16-26 | the component mounts at index 0, at rest, with no flight and no callbacks |
| `Cards.CardStack.HandleKeyDown` | src/_components/card-stack.tsx:30-81 | the key handler performs exactly `OnKey` and keeps the invariant |
| `Cards.CardStack.AnimStart` | src/_components/card-stack.tsx:43-68 | the `onStart` handlers perform exactly `OnStart` and keep the invariant |
| `Cards.CardStack.AnimRest` | src/_components/card-stack.tsx:46-77 | the `onRest` handlers perform exactly `OnRest` and keep the invariant |
| `Photos.FormatFileSize` | src/_components/photo-display.tsx:54-65 | the unit index is at most 3 and names the unit; it is the threshold unit for the byte count; size = bytes / 1024^unitIndex; below GB the size is under 1024; above B it is at least 1; under 1024 bytes the unit is B and the size is the byte count |
| `Photos.UnitIndexMonotone` | src/_components/photo-display.tsx:59-62 | a larger byte count never gets a smaller unit |
| `Photos.AfterSourceChange` | src/_components/photo-display.tsx:25-29 | an empty directory path starts nothing; any other path starts a load |
| `Photos.AfterLoadStart` | src/_components/photo-display.tsx:31-33 | starting a load sets loading and clears the error, touching nothing else |
| `Photos.AfterLoadSettle` | src/_components/photo-display.tsx:34-46 | settling always ends loading; success replaces the photos; failure keeps them and sets the error to "Failed to load photos: " + err |
| `Photos.AfterClick` | src/_components/photo-display.tsx:49-52 | a click selects the photo and forwards the same photo to `onPhotoSelect` when that prop was passed |
| `Photos.ScreenOf` | src/_components/photo-display.tsx:67-103 | spinner iff loading; error panel iff not loading and error non-empty; empty message iff neither and no photos; otherwise the grid of exactly the photos |
| `Photos.SpinnerWhileLoading` | src/_components/photo-display.tsx:31-76 | during a load the spinner shows whatever the earlier state |
| `Photos.LoadSucceeds` | src/_components/photo-display.tsx:31-47 | a successful load ends with no error, exactly the returned photos, the selection kept, and the grid (or the empty message for an empty list) |
| `Photos.LoadFails` | src/_components/photo-display.tsx:42-46 | a failed load keeps the old photos and shows the prefixed error panel, even for an empty rejection text |
| `Photos.InvalidDirectoryShown` | src/_components/photo-display.tsx:35-43 | loading a path that is not a directory shows "Failed to load photos: Invalid directory path" |
| `Photos.PhotoDisplay.constructor` | src/_components/photo-display.tsx:20-23 | the component mounts with no photos, not loading, no error and nothing selected |
| `Photos.PhotoDisplay.SourceDirectoryEffect` | src/_components/photo-display.tsx:25-29 | the effect performs exactly `AfterSourceChange` |
| `Photos.PhotoDisplay.LoadPhotosStart` | src/_components/photo-display.tsx:31-33 | the first half of `loadPhotos` performs exactly `AfterLoadStart` |
| `Photos.PhotoDisplay.LoadPhotosSettle` | src/_components/photo-display.tsx:34-46 | the second half of `loadPhotos` performs exactly `AfterLoadSettle` |
| `Photos.PhotoDisplay.HandlePhotoClick` | src/_components/photo-display.tsx:49-52 | the click handler performs exactly `AfterClick` |
| `Commands.Greet` | src-tauri/src/lib.rs:14-15 | the greeting is "Hello, ", then the name, then "! You've been greeted from Rust!" |
| `Commands.GreetInjective` | src-tauri/src/lib.rs:14-15 | two names get the same greeting only if they are equal |
| `Commands.IsPhotoExtension` | src-tauri/src/lib.rs:27-37 | an accepted extension lower-cases to one of the eight listed ones, so it has 3 or 4 characters; `Commands.PhotoExtensionIgnoresCase` and `Commands.PhotoExtensionExamples` state its case-insensitivity |
| `Commands.Accepted` | src-tauri/src/lib.rs:32-38 | an accepted entry was read and has metadata; `Commands.PhotosOfOne` and `Commands.SkippedEntriesVanish` state which entries become photos |
| `Commands.PhotosOf` | src-tauri/src/lib.rs:31-55 | the photos of a listing are never more than its entries; `Commands.PhotosOfAppend`, `Commands.AcceptedEntryKeepsItsPlace`, `Commands.PhotosOfMembers` and `Commands.PhotosOfLength` give its meaning as the order-preserving filter |
| `Commands.LoadOutcome` | src-tauri/src/lib.rs:20-58 | an error is one of the two messages of the command; success means a readable directory and the filtered listing; `Commands.LoadOutcomeCases` states when each case happens |
| `Commands.LoadPhotosFromDirectory` | src-tauri/src/lib.rs:19-61 | the command's loop returns exactly `LoadOutcome`: the two errors or the order-preserving filter of the listing |
| `Commands.LoadOutcomeCases` | src-tauri/src/lib.rs:20-58 | a missing path or non-directory gives `Err("Invalid directory path")`; a failed read gives `Err("Failed to read directory: " + e)`; the result is `Ok` exactly otherwise |
| `Commands.PhotoExtensionIgnoresCase` | src-tauri/src/lib.rs:27-37 | an extension is accepted exactly when its lower-case form is |
| `Commands.PhotoExtensionExamples` | src-tauri/src/lib.rs:27-37 | "JPG" and "Webp" are accepted; "svg" is not |
| `Commands.PhotosOfOne` | src-tauri/src/lib.rs:32-53 | one entry yields its photo when accepted and nothing otherwise |
| `Commands.PhotosOfAppend` | src-tauri/src/lib.rs:31-39 | the photos of a concatenated listing are the photos of each part, in order |
| `Commands.SkippedEntriesVanish` | src-tauri/src/lib.rs:32-53 | a failed entry, no extension, a non-UTF-8 extension, an unlisted extension or failed metadata adds nothing and causes no error |
| `Commands.AcceptedEntryKeepsItsPlace` | src-tauri/src/lib.rs:35-47 | an accepted entry contributes exactly one photo, between the photos of the entries before and after it |
| `Commands.PhotosOfMembers` | src-tauri/src/lib.rs:35-47 | a photo is returned iff some accepted entry has that file name, path and metadata length |
| `Commands.PhotosOfLength` | src-tauri/src/lib.rs:31-55 | there is one photo per accepted entry, never more than the entries |

## Left out

- The react-spring physics (friction, tension, interpolation) is not modelled. `onStart` and `onRest` are abstract events, and the pose is a tag (Rest, FlyRight, FlyLeft) whose numeric targets are given by `Cards.Target`.
- How react-spring interrupts a running spring is not visible in this code. When a second accepted press arrives, the model keeps only the latest `api.start` call's handlers, so the interrupted flight's pending `onStart` or `onRest` never runs. No lock or queue is invented. As a consequence, a card can pass without any callback: with cards [a, b, c], the events key "d", start, key "d", start, rest log only `Saved(b)`, and card a is never reported to `onSave` (`Cards.InterruptedCardNeverReported`).
- The key handler reads the index of the latest render. The window between `setCurrentIndex` and the effect re-registering its listener is not modelled.
- A change of the `cards` prop after mount is not modelled. The stack is fixed per component instance, and `currentIndex` is not reset by a new list.
- `toLowerCase` and `to_lowercase` are modelled as ASCII folding. The key tests compare against "a" and "d" and the extension test against eight ASCII names; no non-ASCII character lower-cases to any letter used in those (a, b, d, e, f, g, i, j, m, n, p, t, w): U+212A KELVIN SIGN folds to "k", and U+0130 folds to "i" followed by a combining dot, which matches no listed name. So full Unicode folding accepts the same keys and extensions.
- The opacity (1 - d·0.2) and per-card scale (1 - d·0.05) of the stacked cards are not modelled, because they are floating-point presentation values.
- `toFixed(1)` is not modelled: `Photos.FormatFileSize` returns the size, the unit index and the unit text rather than the formatted string.
- `Photos.FormatFileSize` takes its byte count as an exact real. It does not model doubles beyond exact division by 1024, or the u64-to-number conversion.
- Tauri IPC (`invoke`, `convertFileSrc`) is not modelled. The photo list or rejection text reaches `LoadPhotosSettle` as a parameter, and `loadPhotos` is split at its `await` into `LoadPhotosStart` and `LoadPhotosSettle`.
- The file system is not modelled. `Path::exists`, `is_dir`, `fs::read_dir`, `Path::extension`, `file_name`, `to_string_lossy` and `metadata` are replaced by the fields of `Commands.DirectoryProbe` and `Commands.DirEntry`. Error values are given as their display text.
- The metadata length is a `nat`, and the 64-bit bound of `u64` is not modelled.
- `run()` (the Tauri builder) is not modelled, and neither are all JSX markup, class names and the registration and clean-up of the `keydown` listener.
- `src/_components/directory-selector.tsx` and `src/App.tsx` are not part of this model. The first is a native dialog; the second is layout wiring, and its call site passes props that `CardStack` does not declare.
