# Notes add-on: decision logic

A Dafny model of the notes add-on of the Moodle mobile app: the
`AddonNotesProvider` service (adding notes online, the course-notes read and
its cache key, the checks that tell whether the notes features are enabled,
the offline-note predicate) and the `AddonNotesCoursesHandler` that decides
whether the course menu shows a Notes entry, with its per-course memo.

The site is an oracle. Every operation takes, as parameters, the outcome of
each remote interaction it may make: looking the site up (`Lookup`), the one
web-service read or write it issues (`CallResult`), and whether invalidating a
cache key worked. A failure is either a web-service error or some other
failure (transport, storage, site lookup); `IsWebServiceError` is the
classification the app's utility makes. Operations return a `Step`: how the
promise settles plus the effects on the site, in order (`Sent(request)` for
each call, `Invalidated(key)` for each cache key invalidated).

Modules:

- `Outcomes` (`outcomes.dfy`): `Option` (JavaScript's `undefined` is `None`) and `Settled` (a promise resolved or rejected).
- `CacheKeys` (`cache_keys.dfy`): the notes cache key, the decimal rendering of a course id, and its parser.
- `NotesData` (`notes_data.dfy`): the note records sent and received.
- `CoreSite` (`core_site.dfy`): the site oracle, requests, effects.
- `NotesProvider` (`notes_provider.dfy`): the provider's operations.
- `NotesCoursesHandler` (`courses_handler.dfy`): the course-menu handler.

The source itself points at an offline write path that it does not carry out.
The doc comment of `addNote` (notes.ts line 49) promises `false` when a note is
stored on the device. The calls into an offline notes store (`$mmaNotesOffline`)
are commented out: storing a note at notes.ts lines 56, 68 and 73-77, and
merging offline notes into the course list at lines 308-322. The list page's
sync is a stub. The model follows the code. A transport failure during an add
resolves with no value and stores nothing, and no queue of pending notes exists.

Where the code's outcome differs from the documented promise, the model takes the code: `addNote` is documented to resolve `false` when the note is stored on the device, but it never resolves `false`.

The two course-level probes catch different failures:

- `isPluginAddNoteEnabledForCourse` catches failures of its probe only. A failed site lookup still rejects.
- `isPluginViewNotesEnabledForCourse` catches everything and never rejects.

## Model

| member | source | states |
|---|---|---|
| CacheKeys.NotesCacheKey | src/addon/notes/providers/notes.ts:269-271 | the key starts with the fixed prefix `mmaNotes:notes:` and continues past it |
| CacheKeys.NotesKeyRoundTrip | src/addon/notes/providers/notes.ts:269-271 | the course id can be read back from its key: the key names exactly that course |
| CacheKeys.NotesKeyInjective | src/addon/notes/providers/notes.ts:269-271 | two courses share a notes cache key if and only if they are the same course |
| NotesProvider.AddNotesOnline | src/addon/notes/providers/notes.ts:138-152 | an absent or empty batch resolves with no value and contacts nothing; otherwise, once the site is found, exactly one create-notes write carries the batch unchanged, and its failure or reply is handed back as it is |
| NotesProvider.NoteToSend | src/addon/notes/providers/notes.ts:96-104 | the record sent carries the given user, course, publish state and text, with format 1 |
| NotesProvider.AddNoteOnline | src/addon/notes/providers/notes.ts:95-125 | a found site gets exactly one create-notes write of exactly one record with the caller's fields, and no other call (no retry); a failed call rejects with that failure and `wserror` true exactly for web-service errors; a first reply entry with note id -1 rejects with the server's message and `wserror` true; it resolves exactly when neither happened; only then is the course's cache key invalidated, as the one further effect, and a failed invalidation still resolves |
| NotesProvider.InvalidateNotes | src/addon/notes/providers/notes.ts:390-396 | invalidating a course's notes invalidates that course's cache key and no other, when the site manages it |
| NotesProvider.AddNote | src/addon/notes/providers/notes.ts:51-78 | resolves `true` exactly when the online add went through; rejects with the error of a web-service failure or the server's refusal message; resolves with no value exactly on a failure that is not a web-service error; never resolves `false`; sends exactly the one create-notes write of the caller's record that the online add sends, and invalidates the course's key only after an accepted add |
| NotesProvider.AddNoteIgnoresConnectivity | src/addon/notes/providers/notes.ts:54-57 | the connectivity the app reports changes nothing about an add, since the offline branch is empty |
| NotesProvider.IsPluginAddNoteEnabled | src/addon/notes/providers/notes.ts:166-178 | rejects exactly when the site lookup fails, with the lookup's own failure; resolves `true` exactly when the site allows the `enablenotes` feature and offers `core_notes_create_notes` |
| NotesProvider.IsPluginViewNotesEnabled | src/addon/notes/providers/notes.ts:231-243 | rejects exactly when the site lookup fails, with the lookup's own failure; resolves `true` exactly when the site allows the `enablenotes` feature and offers `core_notes_get_course_notes` |
| NotesProvider.FeatureGateDisablesBoth | src/addon/notes/providers/notes.ts:170-171 | with the `enablenotes` feature switched off, both site-level checks resolve `false` |
| NotesProvider.ProbeNote | src/addon/notes/providers/notes.ts:196-206 | the probe record uses user id -1, publish state `personal`, empty text and format 1 for the given course |
| NotesProvider.IsPluginAddNoteEnabledForCourse | src/addon/notes/providers/notes.ts:190-217 | a found site issues one create-notes read of the probe record and no invalidation; an answered probe resolves `true` and a failed one `false`; only a failed site lookup rejects, with the lookup's own failure |
| NotesProvider.NotesPreSets | src/addon/notes/providers/notes.ts:295-302 | the read always carries the course's cache key; ignoring the cache sets both `getFromCache` and `emergencyCache` to false, and otherwise leaves both unset |
| NotesProvider.GetNotesAsWritten | src/addon/notes/providers/notes.ts:285-325 | the code as it stands: one get-course-notes read with those cache options; failures propagate; after a successful read the fetched notes come back exactly when online notes alone were asked for, and otherwise it resolves with no value |
| NotesProvider.GetNotes | src/addon/notes/providers/notes.ts:285-325 | the read as intended: the same single request, failures propagate, and the fetched notes come back whatever `onlyOnline` says |
| NotesProvider.GetNotesAgreesWhenOnlyOnline | src/addon/notes/providers/notes.ts:304-307 | when online notes alone are asked for, the code as written and as intended agree on every input |
| NotesProvider.GetNotesAsWrittenDropsNotes | src/addon/notes/providers/notes.ts:304-323 | the call the list page makes (no `onlyOnline`) resolves with no value as written, but with the fetched notes as intended |
| NotesProvider.IsPluginViewNotesEnabledForCourse | src/addon/notes/providers/notes.ts:255-261 | true exactly when the site is found and the course-notes read succeeds; it never rejects; a found site gets the cached read (no cache override) for that course, and a failed lookup sends nothing |
| NotesProvider.HasOfflineNote | src/addon/notes/providers/notes.ts:366-378 | false for an absent or empty list, otherwise true exactly when some note is flagged offline |
| NotesCoursesHandler.IsEnabledForCourse | src/addon/notes/providers/handlers.ts:64-75 | false for guest access whatever the navigation options say; for anyone else the navigation option verbatim when defined, and true when not |
| NotesCoursesHandler.ShouldDisplayForCourse | src/addon/notes/providers/handlers.ts:86-98 | a defined navigation option wins over any memo entry; a memo hit is returned without probing; a miss probes, returns the probe's answer and stores it under that course only, leaving every other entry as it was |
| NotesCoursesHandler.ShouldDisplayForCourseAsWritten | src/addon/notes/providers/handlers.ts:86-98 | the code as it stands: the same first two rules, but on a memo miss the answer rejects and the memo is left unchanged |
| NotesCoursesHandler.MemoNeverFilledAsWritten | src/addon/notes/providers/handlers.ts:94-97 | as written, asking twice for the same course probes twice and rejects both times; as intended, the second ask answers from the memo with the first answer |
| NotesCoursesHandler.NavOptionAgreement | src/addon/notes/providers/handlers.ts:64-89 | for a user who is not a guest, a defined navigation option gives the same answer from both decisions |
| NotesCoursesHandler.DisplayIgnoresAccess | src/addon/notes/providers/handlers.ts:86-98 | the display decision does not look at the access data: a guest gets the same answer as anyone else |
| NotesCoursesHandler.ReplayExtendsMemo | src/addon/notes/providers/handlers.ts:91-97 | over any run of requests that each settle before the next is made, the memo only grows and no stored answer changes |
| NotesCoursesHandler.ProbedAtMostOnce | src/addon/notes/providers/handlers.ts:91-97 | over any run of requests that each settle before the next is made, each course is probed at most once, and never if the memo already held it |

## Left out

- Storing notes offline and merging offline notes into lists. The calls that would do it are commented out (notes.ts lines 56, 68, 73-77 and 308-322), and the list page's sync is a stub.
- How `site.read` serves cached or stale answers. The model records only the cache options the course-notes read passes (notes.ts lines 295-302), where ignoring the cache also switches the emergency cache off.
- Overlapping requests to the course-menu handler. The memo is written only when the probe settles (handlers.ts lines 94-95), so two overlapping requests for one course both miss the memo and both probe. `Replay` and its lemmas assume each request settles before the next is made.
- The internals of `getSite`, `site.read`, `site.write`, `invalidateWsCacheForKey`, `isWebServiceError`, `canUseAdvancedFeature` and `wsAvailable`. They are code outside the add-on. Their outcomes are oracle parameters, and a site's allowed features and available functions are plain sets.
- Defaulting a missing site id to the current site. It is a lookup in the site registry, folded into the `Lookup` parameter.
- `getNotesUserData`. Its profile lookup is commented out and it hands its input back unchanged.
- `AddonNotesCoursesHandler.isEnabled`. It calls a provider method that does not exist.
- `AddonNotesCoursesHandler.getDisplayData`. It is UI wiring.
- The notes list page and the competency controller. They are view controllers: page lifecycle, modals and navigation.
- Logging, translation and dependency injection.
- CacheKeys.NotesCacheKey: course ids are integers rendered in plain decimal. This agrees with JavaScript for integers of magnitude at most 2^53, the range its numbers represent exactly; above that JavaScript prints the shortest identifying digits padded with zeros. Non-integral ids are not modelled.
- NotesCoursesHandler.IsEnabledForCourse: the navigation option is a boolean or undefined. A defined non-boolean value (such as `null`), which the source returns verbatim, is not modelled.
- NotesCoursesHandler.ShouldDisplayForCourse: a plain boolean answer and a promise of one are not distinguished. Only the value the caller eventually sees is modelled.
- NotesProvider.AddNoteOnline: a failed invalidation is modelled as invalidating nothing. Whether the site invalidated part of its cache before failing is not modelled.

## Findings

| source | as written | input that shows it | evidently intended | confidence | as-written member | corrected member |
|---|---|---|---|---|---|---|
| src/addon/notes/providers/handlers.ts:94-97 | The probe's callback is a plain `function`, so `this` is undefined inside it. Reading `coursesNavEnabledCache` off it throws a TypeError. The promise rejects and the memo is never written (lemma `MemoNeverFilledAsWritten`). | `shouldDisplayForCourse(2, default access, no navOptions)` with an empty memo, asked twice | Store the probe's answer under the course id and return it, so that the second ask is a memo hit | not executed; high | NotesCoursesHandler.ShouldDisplayForCourseAsWritten | NotesCoursesHandler.ShouldDisplayForCourse |
| src/addon/notes/providers/notes.ts:304-323 | With the offline merge commented out, the read's callback returns nothing unless `onlyOnline` is set. So `getNotes(courseId)`, as the list page calls it, resolves with no value, and the page then indexes into it (lemma `GetNotesAsWrittenDropsNotes`). | `getNotes(5)` where the site answers with notes N | Resolve with N, since there are no offline notes to merge | not executed; high | NotesProvider.GetNotesAsWritten | NotesProvider.GetNotes |
