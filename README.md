# TrackerApp: the New Tracker form and the auth redirect rule

TrackerApp is a mobile client for counting things per day ("trackers"). It
sits on a hosted document database and auth service. This project models the
two pieces of logic in its screens that do more than render:

- **The New Tracker form** (`app/new-tracker.tsx`). The form holds `name`,
  `description`, `emoji`, `imageUri`, `loading`, `error` and whether the
  emoji picker is open. Event handlers change these: editing the name or
  the description, opening and closing the emoji picker, choosing an emoji,
  picking an image (or cancelling the pick), removing the image, and
  pressing Create.
  - Create runs three checks in a fixed order: signed in, a non-blank
    name, an icon. The first failure sets its message.
  - Past the checks, Create uploads the image if there is one and writes a
    record with the trimmed name and description, no daily counts, no
    sharers and the user as owner.
  - Whatever happens after that, `loading` is false at the end.
- **The auth redirect rule** (`app/_layout.tsx`). While loading, the root
  layout renders nothing and does not redirect. Otherwise:
  - a visitor without a user outside the `(auth)` route group is sent to
    `/sign-in`;
  - a signed-in user inside that group is sent to `/`.

Files:

- `text.dfy`, module `Text`: JavaScript `String.prototype.trim`. It strips
  the ECMAScript WhiteSpace and LineTerminator code points from both ends.
  The lemmas say what it returns.
- `new_tracker.dfy`, module `NewTracker`: the form.
  - `FormState`, `Step`, `Run` and `Submit` are the value-level
    specification. Its properties are proved as postconditions and lemmas.
  - The class `Form` has one field per piece of component state and one
    method per handler. Each method is proved against `Step`, `Submit`,
    `Persist` or `Initial`.
- `root_layout.dfy`, module `RootLayout`: the redirect decision and the
  render-nothing-while-loading rule.
- `wrappers.dfy`, module `Wrappers`: `Option`. It stands for JavaScript's
  `null` and `undefined`.

The environment's answers are parameters:

- `PickResult`: what the image library returns.
- `UploadOutcome`: what the upload returns. It is a download URL or an
  exception.
- `StoreOutcome`: what the document write returns. It is a reference with
  an id or an exception.
- `signedIn`, `loading` and `segments`: what the auth context and the
  router report.

## Model

| member | source | states |
|---|---|---|
| `Text.Trim` | app/new-tracker.tsx:95-96 | `name.trim()` and `description.trim()` (also the tests at lines 72 and 209): the result is never longer than the input; `TrimSpec`, `TrimEmptyIff` and `TrimIdempotent` state what it returns |
| `Text.TrimStartSpec` | app/new-tracker.tsx:72 | the leading part that `trim` drops is all whitespace or line terminators; what is kept is a suffix of the input that does not start with one |
| `Text.TrimEndSpec` | app/new-tracker.tsx:72 | the trailing part that `trim` drops is all whitespace or line terminators; what is kept is a prefix that does not end with one |
| `Text.TrimSpec` | app/new-tracker.tsx:95-96 | `trim` returns a contiguous infix of its input that neither starts nor ends with whitespace or a line terminator, and everything it drops before and after that infix is whitespace or line terminators |
| `Text.TrimEmptyIff` | app/new-tracker.tsx:72 | `name.trim()` is empty exactly when the name consists of whitespace and line terminators only, "" included |
| `Text.TrimIdempotent` | app/new-tracker.tsx:95-96 | trimming an already trimmed name or description changes nothing |
| `NewTracker.ErrorMessage.Text` | app/new-tracker.tsx:68-113 | the error field's text is empty exactly when no error is set; the four messages are the handler's own strings |
| `NewTracker.CreateEnabled` | app/new-tracker.tsx:209 | the Create button is enabled exactly when the name holds a character other than whitespace and line terminators and no create is in flight |
| `NewTracker.Submit` | app/new-tracker.tsx:66-120 | the checks run in order and the first failure wins: no user, then a blank name, then no emoji and no image. A failed check sets only `error` and creates nothing. Otherwise `loading` ends false and `error` is cleared on success or set to the failure message. Create succeeds exactly when the checks pass, the upload (needed only for an image) succeeds and the write returns a non-empty id. The record holds the trimmed name (non-empty) and trimmed description, the emoji as given, `dailyCounts` empty, `sharedWith` empty and the user's uid as owner. `imageUrl` is the uploaded URL exactly when an image was picked, else null. With at most one icon, the record has exactly one |
| `NewTracker.Persist` | app/new-tracker.tsx:82-119 | past validation the handler never reports a validation error; it ends with `loading` false and `error` cleared on success, set on failure, the other fields unchanged |
| `NewTracker.Step` | app/new-tracker.tsx:42-224 | every event keeps "never both an emoji and an image", and keeps `loading` false. Choosing an emoji or picking an image establishes exclusivity whatever came before. Picking an image sets `imageUri` and clears `emoji`; a cancelled or failed pick changes nothing. Choosing an emoji sets it, clears `imageUri` and closes the picker. Remove Image clears only `imageUri`. Editing the name sets it and clears `error`. Pressing a disabled Create button changes nothing |
| `NewTracker.RunKeepsSettled` | app/new-tracker.tsx:42-224 | across any sequence of events, a form that starts with at most one icon and not loading stays that way |
| `NewTracker.ReachableSettled` | app/new-tracker.tsx:23-28 | every state reachable from the initial one (all fields empty, not loading) holds at most one icon and is not loading |
| `NewTracker.ReachableCreateHasOneIcon` | app/new-tracker.tsx:86-101 | a tracker created from any reachable state has exactly one icon: an emoji or an image URL, never both, never neither |
| `NewTracker.NameCheckRejectsBlank` | app/new-tracker.tsx:72-75 | "Name is required" is reported exactly when the user is signed in and the name is blank |
| `NewTracker.CreatedNameIsTrimmed` | app/new-tracker.tsx:95 | a created tracker's name is non-empty and neither starts nor ends with whitespace or a line terminator |
| `NewTracker.UploadOnlyForImage` | app/new-tracker.tsx:86-89 | without a picked image the upload is never consulted: its outcome does not affect the result |
| `NewTracker.EnabledPassesNameCheck` | app/new-tracker.tsx:209 | while the Create button is enabled, the handler never reports "Name is required" |
| `NewTracker.Form.constructor` | app/new-tracker.tsx:23-29 | the form mounts with empty fields, no error, not loading and the picker closed |
| `NewTracker.Form.ChangeName` | app/new-tracker.tsx:146-149 | the new name is stored, `error` is cleared and nothing else changes |
| `NewTracker.Form.ChangeDescription` | app/new-tracker.tsx:161 | the new description is stored and nothing else changes |
| `NewTracker.Form.OpenEmojiPicker` | app/new-tracker.tsx:172 | the picker opens and nothing else changes |
| `NewTracker.Form.CloseEmojiPicker` | app/new-tracker.tsx:227 | the picker closes and nothing else changes |
| `NewTracker.Form.SelectEmoji` | app/new-tracker.tsx:221-225 | the emoji is stored, the image is cleared and the picker closes, so the form holds at most one icon |
| `NewTracker.Form.PickImage` | app/new-tracker.tsx:33-50 | a picked image is stored and the emoji cleared, so the form holds at most one icon; a cancelled or failed pick leaves every field unchanged |
| `NewTracker.Form.RemoveImage` | app/new-tracker.tsx:198 | only `imageUri` is cleared |
| `NewTracker.Form.HandleCreate` | app/new-tracker.tsx:66-81 | the handler's result and the new field values are those `Submit` gives for the fields before the call |
| `NewTracker.Form.Save` | app/new-tracker.tsx:82-119 | the `try`/`catch`/`finally` part: the new field values and the result are those `Persist` gives for the fields with `loading` set and `error` cleared |
| `NewTracker.Form.PressCreate` | app/new-tracker.tsx:206-209 | the button runs the handler exactly when the trimmed name is non-empty and nothing is loading; otherwise nothing changes |
| `RootLayout.RedirectDecision` | app/_layout.tsx:13-27 | a redirect happens exactly when nothing is loading and the user's presence matches the `(auth)` group. The target is `/sign-in` when there is no user outside the group and `/` when there is a user inside it. It is never both |
| `RootLayout.RootLayoutNav` | app/_layout.tsx:13-31 | while loading, no redirect and nothing rendered; otherwise the stack is rendered and the redirect rule applies |
| `RootLayout.DependsOnFirstSegmentOnly` | app/_layout.tsx:16-17 | the decision depends only on whether the first segment is `(auth)`; the `(tabs)` test has no effect |
| `RootLayout.UndefinedLoadingIsNotLoading` | app/_layout.tsx:9 | with `loading` undefined, as the auth context's type leaves it, the layout behaves as if loading were over |
| `RootLayout.RedirectSettles` | app/_layout.tsx:19-24 | whatever `loading` is, the rule asks for no further redirect at its own target. This assumes `/sign-in` lies in `(auth)` and `/` does not |

## Notes

- `loading` in `app/_layout.tsx`: line 9 reads `loading` from `useAuth()`.
  The context's type (`context/auth.tsx:10-13`) carries only `user` and
  `signOut`, so at run time `loading` is `undefined`, which is falsy. The
  model takes `loading` as an optional flag with JavaScript truthiness.
  Both readings are available, and `UndefinedLoadingIsNotLoading` states
  what the code as written does. Nothing is claimed about what the authors
  meant.
- The form's `error` field is a string in the source. It only ever holds
  "" or one of four fixed messages, so the model keeps it as
  `ErrorMessage`. `ErrorMessage.Text` gives the exact strings.
- A tracker's name is required to be non-empty. The code enforces this
  on the trimmed name, after first requiring a signed-in user. The model
  follows the code.

## Left out

- The image library call and its options (`app/new-tracker.tsx:35-40`):
  foreign call. Its answer is the `PickResult` parameter. The failure
  alert at lines 47-48 is UI.
- `uploadImage` (`app/new-tracker.tsx:52-64`). The fetch, the blob, the
  storage path built from the uid and `Date.now()`, and `getDownloadURL`
  are foreign calls. The outcome is the `UploadOutcome` parameter.
- `addDoc` and the `users/{uid}/trackers` collection path
  (`app/new-tracker.tsx:92-104`): foreign call. The outcome is the
  `StoreOutcome` parameter. `createdAt: new Date()` is left out because
  it reads the clock.
- `router.back()` after a successful create: `Created` stands for it. The
  alert in the `catch` block and the `console.error` calls are UI and
  logging.
- Events that arrive while the handler awaits the upload or the write.
  Each handler in the model runs to completion, so `Settled` (never left
  loading) holds between events. That is a property of this sequential
  model, not of the asynchronous component.
- The record is built from the field values at the moment Create is
  pressed, as the handler's closure sees them. Edits made while it awaits
  are not modelled.
- JSX rendering, styling and the back button (`app/new-tracker.tsx:122-231`,
  `app/_layout.tsx:33-47`): UI.
- `RootLayout`: a user is modelled as present or absent (`signedIn`); the
  rule reads nothing else about it.
- The auth provider's own render-nothing-until-loaded rule
  (`context/auth.tsx:39-41`) and its listener are not part of this model.
- Sharing a tracker with other users and fanning its counts out to them
  are implemented in none of `app/new-tracker.tsx`, `app/_layout.tsx`,
  `app/(tabs)/profile.tsx` or `app/tracker/[id].tsx`. The new form only writes
  `sharedWith` as empty. `app/(tabs)/profile.tsx` touches `sharedWith`
  only when an account is deleted, to delete the shared copies of the
  user's trackers. `app/tracker/[id].tsx` updates only the viewer's own
  document and opens the system share sheet. Neither file is part of this
  model.
- `lib/firebase.ts`, `hooks/useAuthPersistence.ts`, `App.tsx` and
  `app.config.js` are SDK setup, storage I/O, logging and build
  configuration. They are not part of this model.
