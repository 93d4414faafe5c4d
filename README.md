# NoteVerse core, modelled in Dafny

NoteVerse is an offline-first notes application. This project models its core and proves properties of that model. The core has four parts:

- **Local store** (`src/services/database.js`, `local_store.dfy`). This is the `DatabaseService` singleton. It holds six collections: notes, the append-only sync log, Spotify tracks, Pinterest images, settings and the device id.
  - `Store` is a value holding those collections. One pure function per operation (`Created`, `Updated`, `Deleted`, `MarkedSynced`, ...) states the store that operation leaves behind.
  - Class `Database` has one field per collection. Each of its methods is proved to leave exactly the store its function describes.
- **Sync engine** (`src/services/syncService.js`, `sync_engine.dfy`). This is the `SyncService` singleton.
  - **The network.** It is modelled as an oracle: class `Transport` answers each request with the next reply of a script fixed in advance, and records every request it is sent. Every property therefore holds for every well-formed server reply; a reply the model cannot represent is listed under "## Left out".
  - **The loops.** There are three: push, pull and queue replay. Each is a fold of a step function over a list (`Util.FoldLeft`). Generic lemmas about such folds give the ordering and counting properties.
  - **The class.** `SyncService` holds the online flag, the single-flight flag and the conflict notifications. Its methods are proved equal to the pure functions `Call`, `ResolveConflict`, `ItemPushed`, `ChangeApplied`, `Pulled`, `Sync` and `ProcessQueue`.
- **Theme registry** (`src/services/themeService.js`, `themes.dfy`). The five preset themes are overlaid by a mutable map of custom themes, and there is a current theme id; both are persisted through the store.
  - Class `ThemeService` is proved against the pure functions `AllThemes`, `ThemeSet`, `ThemeCreated`, `ThemeUpdated`, `ThemeDeleted`, `Duplicated`, `Exported`, `Imported`, `AutoSet` and `AutoChecked`.
  - The hour-of-day mapping and `getContrastColor` are pure functions. `getContrastColor` uses the exact `parseInt(…, 16)` semantics.
- **Note list of the notes screen** (`src/components/NotesApp.jsx`, `notes_view.dfy`). The screen keeps its list in React state and replaces it whole on each change. So search, create, update, delete, favourite and the tag editor are functions from the old view to the new one.

`records.dfy` holds the shared record shapes and `util.dfy` holds generic helpers: options, results, `Array.filter`, a left fold, ASCII `toLowerCase`, `trim`, `includes` and decimal digits.

Conventions used throughout:

- **Time.** Timestamps are ISO-8601 strings in the source. They always have one fixed format, so their string order is their time order; the model uses integers for them.
- **The clock.** The wall clock is the store's `clock` field. Each reading returns it and advances it by one. The ids the source derives from `Date.now()` are made from the clock; the model does not promise that no stored item already has such an id. Where the source reads the clock twice within one operation, the model sometimes reads it once (see "## Left out").
- **The conflict policy.** The source fixes it at `latest_wins`. The model takes `LatestWins`, `Manual` or `Merge` as a parameter, and every property is proved for each.

In some places the code does less than its own call sites suggest, and the model follows the code. For example, the sync handlers pass `sync_status: 'synced'` (syncService.js:126, 144, 152, 178), yet `updateNote` and `createNote` overwrite it (database.js:53-64, 118-124):

- `updateNote` always sets the note to pending and raises its version. This applies to every write the sync engine makes through it: a remote update, and a latest-wins or merge resolution. Those notes therefore end **pending**, not synced (`LatestWinsTakesNewerRemote`, `RemoteUpdateOfSyncedNoteApplies`).
- `createNote` ignores the draft's id and sync status. A remote create is therefore stored under a local id made from the clock, as a pending note (`RemoteCreateLandsPending`).
- `deleteNote` does not remove the note's tracks and images (`DeleteKeepsAttachments`). It returns `true` even when no note matched.
- `lastSyncTime` advances only when the pull reply is successful and carries at least one change (`Pulled`).

## Model

| member | source | states |
|---|---|---|
| Records.DraftOf | NoteVerse/src/services/syncService.js:124-127 | the draft made from a remote note carries its id, title, content and version, and asks for status synced |
| Records.PatchOf | NoteVerse/src/services/syncService.js:142-145 | the patch made from a note sets its title and content and the requested sync status |
| LocalStore.WithDeviceId | NoteVerse/src/services/database.js:290-297 | a stored non-empty device id is returned unchanged; when none is stored, or the stored one is empty, a new `web_<time>_<random>` id is stored and returned; no notes, log or settings change |
| LocalStore.DeviceIdStable | NoteVerse/src/services/database.js:290-297 | asking for the device id a second time returns the same id and changes nothing more |
| LocalStore.Logged | NoteVerse/src/services/database.js:237-254 | exactly one entry for the note, action and payload is appended to the sync log, stamped with the time and the device id; notes, attachments and settings are untouched |
| LocalStore.Created | NoteVerse/src/services/database.js:49-78 | the new note is first in the list with id = time, version 1 and status pending, and takes the draft's title and the content/category defaults; one `create` entry is logged |
| LocalStore.FindIndex | NoteVerse/src/services/database.js:112 | `findIndex`: `None` iff no note has the id, otherwise the first index with that id |
| LocalStore.ApplyPatch | NoteVerse/src/services/database.js:118-124 | `{...note, ...updates}`: for each of the twelve keys (id included, so a patch can rename the note), the update's value wins when present and the note's value stays otherwise |
| LocalStore.Updated | NoteVerse/src/services/database.js:109-136 | `NotFound` iff no note has the id; otherwise only the first match changes, it takes the updates, is pending with version + 1 and the current time, and one `update` entry is logged |
| LocalStore.UpdatesCountVersions | NoteVerse/src/services/database.js:109-136 | two updates in a row raise the version by exactly two and leave the note pending |
| LocalStore.WithoutId | NoteVerse/src/services/database.js:141 | exactly the notes with a different id survive |
| LocalStore.Deleted | NoteVerse/src/services/database.js:138-152 | every note with the id is gone, the rest stay, the result is true, one `delete` entry is logged, attachments stay |
| LocalStore.DeleteKeepsOrder | NoteVerse/src/services/database.js:138-152 | deleting distributes over concatenation, so the survivors keep their order |
| LocalStore.DeleteAbsentKeepsNotes | NoteVerse/src/services/database.js:138-152 | deleting an absent id leaves the note list as it was |
| LocalStore.DeleteKeepsAttachments | NoteVerse/src/services/database.js:138-152 | the deleted note's tracks and images are still stored afterwards |
| LocalStore.MarkedSynced | NoteVerse/src/services/database.js:276-288 | only the first note with the id changes, to synced, keeping its content, version and time; an absent id changes nothing |
| LocalStore.MarkSyncedIdempotent | NoteVerse/src/services/database.js:276-288 | marking synced twice is the same as once |
| LocalStore.FirstMatchIsFound | NoteVerse/src/services/database.js:112 | a match with no earlier match is the index `findIndex` returns |
| LocalStore.FindIndexStable | NoteVerse/src/services/database.js:112 | rewriting the first match without changing its id, and nothing before it, keeps the first match in place |
| LocalStore.PendingSyncItems | NoteVerse/src/services/database.js:266-274 | exactly the pending notes |
| LocalStore.PendingKeepsOrder | NoteVerse/src/services/database.js:266-274 | the pending notes keep the list's order |
| LocalStore.CreatedNoteIsFirstPending | NoteVerse/src/services/database.js:49-78 | after a create, the outbound work list is the new note followed by the old pending notes |
| LocalStore.TracksOf | NoteVerse/src/services/database.js:191-194 | exactly the tracks attached to the note |
| LocalStore.ImagesOf | NoteVerse/src/services/database.js:231-234 | exactly the images attached to the note |
| LocalStore.WithTrack | NoteVerse/src/services/database.js:155-179 | the track is appended with play count 0 and id = time; notes, log, images and settings are untouched |
| LocalStore.WithImage | NoteVerse/src/services/database.js:197-219 | the image is appended with id = time; notes, log, tracks and settings are untouched |
| LocalStore.NoteById | NoteVerse/src/services/database.js:80-97 | `None` iff no note has the id; otherwise the first match with exactly its tracks and images |
| LocalStore.WithSetting | NoteVerse/src/services/database.js:311-320 | the key reads back the value and every other key reads as before |
| LocalStore.Database.constructor | NoteVerse/src/services/database.js:27-46 | a first run starts with every collection empty |
| LocalStore.Database.GetDeviceId | NoteVerse/src/services/database.js:290-297 | leaves the store and returns the id `WithDeviceId` describes |
| LocalStore.Database.LogSyncAction | NoteVerse/src/services/database.js:237-254 | leaves the store `Logged` describes |
| LocalStore.Database.CreateNote | NoteVerse/src/services/database.js:49-78 | leaves the store and returns the note `Created` describes |
| LocalStore.Database.UpdateNote | NoteVerse/src/services/database.js:109-136 | `Err(NotFound)` with nothing changed for an absent id, otherwise the store and note `Updated` describes |
| LocalStore.Database.DeleteNote | NoteVerse/src/services/database.js:138-152 | leaves the store `Deleted` describes and returns true |
| LocalStore.Database.AddSpotifyTrack | NoteVerse/src/services/database.js:155-179 | leaves the store and returns the track `WithTrack` describes |
| LocalStore.Database.AddPinterestImage | NoteVerse/src/services/database.js:197-219 | leaves the store and returns the image `WithImage` describes |
| LocalStore.Database.MarkAsSynced | NoteVerse/src/services/database.js:276-288 | leaves the store `MarkedSynced` describes |
| LocalStore.Database.SetSetting | NoteVerse/src/services/database.js:311-320 | leaves the store `WithSetting` describes |
| SyncEngine.ConflictKey | NoteVerse/src/services/syncService.js:210 | the key starts with `conflict_` |
| SyncEngine.ConflictKeysDistinct | NoteVerse/src/services/syncService.js:210 | two different notes never share a conflict key |
| SyncEngine.ConflictKeysAreApart | NoteVerse/src/services/syncService.js:200-214 | a conflict record never overwrites the offline queue or the last sync time |
| SyncEngine.Queued | NoteVerse/src/services/syncService.js:271-282 | the request is appended at the end of the queue with the current time; every other setting, the notes and the log are untouched |
| SyncEngine.Call | NoteVerse/src/services/syncService.js:239-269 | the request is sent and the reply is the next scripted one; the store changes only when offline and failed, and then only by queueing that request |
| SyncEngine.MergeNotes | NoteVerse/src/services/syncService.js:216-230 | equal contents are kept; different contents become local + marker + remote; the remote title wins iff it is strictly newer; the result is synced; every other field is the local note's |
| SyncEngine.MergeKeepsBothTexts | NoteVerse/src/services/syncService.js:216-230 | for all notes, the merged content begins with the local content and ends with the remote content, and is longer than the local content iff the two differ |
| SyncEngine.Resolve | NoteVerse/src/services/syncService.js:170-198 | manual always records; latest-wins overwrites with the remote note iff it is strictly newer; merge overwrites with the merged note; a missing remote note under latest-wins or merge abandons |
| SyncEngine.RecordConflict | NoteVerse/src/services/syncService.js:200-214 | one unresolved record with both versions is stored under `conflict_<id>` and announced once; no other setting and no note changes |
| SyncEngine.ResolveConflict | NoteVerse/src/services/syncService.js:170-198 | resolving sends nothing and leaves the queue and last sync time alone; only manual announces |
| SyncEngine.LatestWinsTakesNewerRemote | NoteVerse/src/services/syncService.js:174-181 | a strictly newer remote note gives the stored note its id, title and content (a remote note carrying another id renames it), and the note ends pending with version + 1; every other note is untouched |
| SyncEngine.LatestWinsKeepsLocalOnTie | NoteVerse/src/services/syncService.js:174-181 | a remote note that is not newer, a tie included, changes nothing |
| SyncEngine.ManualRecordsBothVersions | NoteVerse/src/services/syncService.js:183-185 | manual stores and announces exactly one record for the note, changes no note, and leaves every other note's conflict record as it was |
| SyncEngine.StepsSendInOrder | NoteVerse/src/services/syncService.js:70-91 | a loop whose body sends one request per element sends them all, in element order, using one reply each |
| SyncEngine.StepsWithoutAnswers | NoteVerse/src/services/syncService.js:70-91 | a loop whose body leaves the notes alone on failure leaves them alone over a run of failures |
| SyncEngine.QuietSteps | NoteVerse/src/services/syncService.js:104-106 | a loop of steps that send nothing sends nothing |
| SyncEngine.StepsKeepNotes | NoteVerse/src/services/syncService.js:289-297 | a loop of steps that keep the notes keeps the notes |
| SyncEngine.ItemPushed | NoteVerse/src/services/syncService.js:70-91 | one `POST /notes/sync` carrying the item is sent; success marks the item synced; a refusal flagged as a conflict hands the item and the server's note to the conflict handler; failure or any other refusal leaves the notes alone |
| SyncEngine.PushSendsOnePerItem | NoteVerse/src/services/syncService.js:60-92 | the push sends exactly one request per item, in item order, carrying that item |
| SyncEngine.PushWithoutAnswersKeepsNotes | NoteVerse/src/services/syncService.js:60-92 | when every request fails, no note changes and every item stays pending |
| SyncEngine.Dispatch | NoteVerse/src/services/syncService.js:115-168 | create or update of an unknown note creates it; create of a known note, or update of a pending note edited after the change, is a conflict; other updates apply; delete of a known note deletes it; anything else is ignored |
| SyncEngine.LocalNote | NoteVerse/src/services/syncService.js:117 | the first stored note with the change's id, or none |
| SyncEngine.ChangeApplied | NoteVerse/src/services/syncService.js:115-168 | applying one change sends nothing and leaves the queue and the last sync time alone |
| SyncEngine.RemoteDeleteIsUnconditional | NoteVerse/src/services/syncService.js:158-162 | a remote delete removes every note with that id, pending or not, and keeps all others |
| SyncEngine.RemoteCreateLandsPending | NoteVerse/src/services/syncService.js:121-130 | a remote create of an unknown note lands first in the list, pending, version 1, under a local id made from the clock, with the remote title and content |
| SyncEngine.RemoteUpdateOfSyncedNoteApplies | NoteVerse/src/services/syncService.js:132-156 | a remote update of a synced note always applies, whatever the timestamps, and announces nothing |
| SyncEngine.ChangesAreQuiet | NoteVerse/src/services/syncService.js:104-106 | applying a whole pull's changes sends nothing and leaves the queue and last sync time alone |
| SyncEngine.Pulled | NoteVerse/src/services/syncService.js:94-113 | one `GET /notes/changes` is sent with `since` = the stored last sync time; the last sync time advances iff the reply is successful with at least one change, and otherwise no note changes |
| SyncEngine.SyncRequestCount | NoteVerse/src/services/syncService.js:36-58 | a sync pass sends exactly one request per pending note plus one for changes |
| SyncEngine.ReplayInOrder | NoteVerse/src/services/syncService.js:289-297 | the replay sends every queued request once, in queue order, and changes no note |
| SyncEngine.ProcessQueue | NoteVerse/src/services/syncService.js:284-303 | every queued request is attempted once in order, the queue ends empty whatever the outcomes, and no note changes |
| SyncEngine.Transport.Send | NoteVerse/src/services/syncService.js:254-261 | the request is recorded and the next scripted reply is consumed and returned |
| SyncEngine.SyncService.constructor | NoteVerse/src/services/syncService.js:5-20 | starts idle, with no notifications, with the given online state and policy |
| SyncEngine.SyncService.QueueOfflineRequest | NoteVerse/src/services/syncService.js:271-282 | leaves the world `Queued` describes |
| SyncEngine.SyncService.MakeApiRequest | NoteVerse/src/services/syncService.js:239-269 | leaves the world and returns the reply `Call` describes |
| SyncEngine.SyncService.StoreConflictForManualResolution | NoteVerse/src/services/syncService.js:200-214 | leaves the world `RecordConflict` describes |
| SyncEngine.SyncService.HandleConflict | NoteVerse/src/services/syncService.js:170-198 | leaves the world `ResolveConflict` describes |
| SyncEngine.SyncService.PushItem | NoteVerse/src/services/syncService.js:70-91 | leaves the world `ItemPushed` describes |
| SyncEngine.SyncService.PushNext | NoteVerse/src/services/syncService.js:70-91 | one more turn of the push loop extends the fold by the next item |
| SyncEngine.SyncService.PushAll | NoteVerse/src/services/syncService.js:70-91 | the loop leaves the fold of `ItemPushed` over the items, first to last |
| SyncEngine.SyncService.PushLocalChanges | NoteVerse/src/services/syncService.js:60-92 | leaves the fold of `ItemPushed` over the pending notes |
| SyncEngine.SyncService.ApplyRemoteChange | NoteVerse/src/services/syncService.js:115-168 | leaves the world `ChangeApplied` describes |
| SyncEngine.SyncService.PullRemoteChanges | NoteVerse/src/services/syncService.js:94-113 | leaves the world `Pulled` describes; its loop applies the changes in server order |
| SyncEngine.SyncService.PerformSync | NoteVerse/src/services/syncService.js:36-58 | single-flight: a pass already running makes the call change nothing; otherwise one push-then-pull pass runs and the flag is clear again |
| SyncEngine.SyncService.ReplayAll | NoteVerse/src/services/syncService.js:289-297 | the loop leaves the fold of the replay step over the queue, in order |
| SyncEngine.SyncService.ReplayNext | NoteVerse/src/services/syncService.js:289-297 | one more turn of the replay loop extends the fold by the next entry |
| SyncEngine.SyncService.ProcessQueuedRequests | NoteVerse/src/services/syncService.js:284-303 | leaves the world `ProcessQueue` describes |
| SyncEngine.SyncService.SyncWhenOnline | NoteVerse/src/services/syncService.js:310-317 | when online and idle, replays the queue and then runs one pass; otherwise changes nothing |
| SyncEngine.SyncService.Initialize | NoteVerse/src/services/syncService.js:22-34 | one pass at start-up when online and idle; nothing changes when offline or when a pass is already running |
| SyncEngine.SyncService.GoOnline | NoteVerse/src/services/syncService.js:12-15 | the service is online, and the queue is replayed before one pass |
| SyncEngine.SyncService.GoOffline | NoteVerse/src/services/syncService.js:17-19 | the service is offline |
| SyncEngine.SyncService.TimerTick | NoteVerse/src/services/syncService.js:24-28 | the periodic pass runs only when online and idle |
| SyncEngine.SyncService.ForcSync | NoteVerse/src/services/syncService.js:320-326 | refuses while offline, changing nothing; otherwise runs `performSync` and returns no value; a pass already running makes it change nothing |
| SyncEngine.SyncService.GetSyncStatus | NoteVerse/src/services/syncService.js:329-337 | reports the online and in-progress flags as they are, the number of pending notes (zero iff none is pending, never above the note count), the length of the stored offline queue, and the stored last sync time |
| Themes.AllThemes | NoteVerse/src/services/themeService.js:398-404 | every preset id and every custom id is listed, and a custom theme shadows a preset with the same id |
| Themes.Resolved | NoteVerse/src/services/themeService.js:413-418 | the chosen id always names a theme, and it is the requested one iff that one exists |
| Themes.CurrentTheme | NoteVerse/src/services/themeService.js:407-410 | the current theme, or the default theme when the current id names none |
| Themes.ThemeSet | NoteVerse/src/services/themeService.js:413-424 | the current id becomes the requested one if it exists, else `app-default`, and is persisted; the custom themes and every other setting are untouched |
| Themes.SetThemeSelects | NoteVerse/src/services/themeService.js:407-424 | after setting a theme, the current theme is that theme, or the default one |
| Themes.Loaded | NoteVerse/src/services/themeService.js:370-380 | the persisted custom table is loaded; a stored non-empty current id is kept, and `app-default` is used when none is stored or the stored one is empty |
| Themes.Overlay | NoteVerse/src/services/themeService.js:490-496 | each of the seven sections holds every key of either side, the update's value winning |
| Themes.OverlayLaws | NoteVerse/src/services/themeService.js:516-522 | overlaying nothing keeps the sections, and overlaying the same update twice is overlaying it once |
| Themes.FreshId | NoteVerse/src/services/themeService.js:486 | a given non-empty id is kept; otherwise the id is the prefix plus the current time, and the clock advances |
| Themes.ThemeCreated | NoteVerse/src/services/themeService.js:485-506 | the theme is stored under the given or generated id, marked custom, with name/kind defaults and every section laid over the default theme's; other custom themes are untouched and the table is persisted |
| Themes.ThemeUpdated | NoteVerse/src/services/themeService.js:509-538 | fails iff the id is not a custom theme; otherwise top-level keys present in the update win, every section is merged key by key, the update time is stamped, and the table is persisted |
| Themes.UpdateKeepsUnsuppliedSections | NoteVerse/src/services/themeService.js:509-538 | an update with no section keys leaves every section as it was |
| Themes.ThemeDeleted | NoteVerse/src/services/themeService.js:541-556 | fails iff the id is not a custom theme; otherwise it is removed, every preset is still listed, and a deleted current theme falls back to `app-default` |
| Themes.DeleteRestoresPreset | NoteVerse/src/services/themeService.js:541-556 | deleting a custom theme that shadows a preset brings the preset back |
| Themes.Duplicated | NoteVerse/src/services/themeService.js:559-575 | fails iff the source theme is unknown; otherwise a new custom theme under the id `custom-<time>` (replacing any custom theme already stored under it) holds the source's sections laid over the default's, named as asked or "<name> Copy" |
| Themes.Exported | NoteVerse/src/services/themeService.js:587-603 | fails iff the theme is unknown; otherwise the document has version "1.0", the time, and the theme with its id |
| Themes.Imported | NoteVerse/src/services/themeService.js:606-622 | fails iff the theme or the version is missing; otherwise a custom theme named "<name> (Imported)" is created under the exported id when one is given |
| Themes.ImportOfExport | NoteVerse/src/services/themeService.js:587-622 | importing an export recreates the theme under the same id as a custom theme, with the same kind and the "(Imported)" name, and it is the theme listed under that id |
| Themes.ImportOfExportKeepsFullSections | NoteVerse/src/services/themeService.js:587-622 | a theme that has every key of the default theme comes back from export and import with identical sections |
| Themes.AutoThemeFor | NoteVerse/src/services/themeService.js:713-722 | hours 6-17 give `app-default`, 18-21 give `sunset`, any other hour gives `dark-professional` |
| Themes.AutoSet | NoteVerse/src/services/themeService.js:709-730 | the flag is persisted; when on, the hour's theme is set, and when off the current theme stays |
| Themes.AutoChecked | NoteVerse/src/services/themeService.js:733-747 | the hourly check switches to the hour's theme only when automatic theming is on and the theme differs |
| Themes.AutoThemeMatchesDaylight | NoteVerse/src/services/themeService.js:709-730 | with the presets in place, turning automatic theming on leaves a dark theme iff it is night |
| Themes.RemoveFirst | NoteVerse/src/services/themeService.js:783 | `replace('#', '')` removes exactly the first `#`: the result is the text before it followed by the text after it, and a string without `#` is unchanged |
| Themes.Substr | NoteVerse/src/services/themeService.js:784-786 | `substr` takes at most the requested length, and exactly that slice when it fits |
| Themes.ContrastColor | NoteVerse/src/services/themeService.js:781-789 | the answer is always black or white text |
| Themes.ParseHexPair | NoteVerse/src/services/themeService.js:784-786 | `parseInt` of two hex digits is their value, below 256 |
| Themes.ContrastOfHexColor | NoteVerse/src/services/themeService.js:781-789 | for `#rrggbb`, the text is black iff 299 r + 587 g + 114 b > 128000, each channel being a byte |
| Themes.NoDigitsMeansWhite | NoteVerse/src/services/themeService.js:781-789 | a background without hex digits always gets white text |
| Themes.ThemeService.constructor | NoteVerse/src/services/themeService.js:370-380 | the service starts with the registry `Loaded` reads from the store |
| Themes.ThemeService.GetAllThemes | NoteVerse/src/services/themeService.js:398-404 | lists every preset and custom id, the custom theme winning |
| Themes.ThemeService.GetCurrentTheme | NoteVerse/src/services/themeService.js:407-410 | is `CurrentTheme` of the fields |
| Themes.ThemeService.IsCurrentThemeDark | NoteVerse/src/services/themeService.js:777-779 | true iff the current theme's kind is `dark` |
| Themes.ThemeService.SetTheme | NoteVerse/src/services/themeService.js:413-424 | leaves the registry `ThemeSet` describes |
| Themes.ThemeService.SaveCustomThemes | NoteVerse/src/services/themeService.js:578-584 | the custom table is persisted under `custom_themes` |
| Themes.ThemeService.CreateCustomTheme | NoteVerse/src/services/themeService.js:485-506 | leaves the registry and returns the id `ThemeCreated` describes |
| Themes.ThemeService.UpdateCustomTheme | NoteVerse/src/services/themeService.js:509-538 | an error with nothing changed, or the registry and theme `ThemeUpdated` describes |
| Themes.ThemeService.DeleteCustomTheme | NoteVerse/src/services/themeService.js:541-556 | an error with nothing changed, or the registry `ThemeDeleted` describes and true |
| Themes.ThemeService.DuplicateTheme | NoteVerse/src/services/themeService.js:559-575 | an error with nothing changed, or the registry and id `Duplicated` describes |
| Themes.ThemeService.ExportTheme | NoteVerse/src/services/themeService.js:587-603 | an error with nothing changed, or the document `Exported` describes |
| Themes.ThemeService.ImportTheme | NoteVerse/src/services/themeService.js:606-622 | an error with nothing changed, or the registry and id `Imported` describes |
| Themes.ThemeService.SetAutoTheme | NoteVerse/src/services/themeService.js:709-730 | leaves the registry `AutoSet` describes |
| Themes.ThemeService.AutoThemeCheck | NoteVerse/src/services/themeService.js:733-747 | leaves the registry `AutoChecked` describes |
| NotesView.FilteredNotes | NoteVerse/src/components/NotesApp.jsx:106-109 | a note is shown iff its lower-cased title or content contains the lower-cased query |
| NotesView.SearchKeepsOrder | NoteVerse/src/components/NotesApp.jsx:106-109 | the search keeps the list's order |
| NotesView.EmptyQueryShowsAll | NoteVerse/src/components/NotesApp.jsx:106-109 | an empty query shows every note, in order |
| NotesView.SearchIgnoresQueryCase | NoteVerse/src/components/NotesApp.jsx:106-109 | lower-casing the query does not change the result |
| NotesView.NewCard | NoteVerse/src/components/NotesApp.jsx:112-121 | the new note is "Untitled Note", empty, in "ideas", not a favourite, without tags, with id and times = now |
| NotesView.CreateNewNote | NoteVerse/src/components/NotesApp.jsx:111-125 | the new note comes first, the old notes follow unchanged, it is opened for editing and the dialog closes |
| NotesView.Patched | NoteVerse/src/components/NotesApp.jsx:130 | `{...note, ...updates, updatedAt}`: keys present in the updates win, and the time is stamped |
| NotesView.UpdateNote | NoteVerse/src/components/NotesApp.jsx:127-133 | length and order are kept, every note with the id is patched and every other note is untouched |
| NotesView.UpdatesCompose | NoteVerse/src/components/NotesApp.jsx:127-133 | two updates of one note are one update with the merged patch |
| NotesView.UpdateAbsentIsIdentity | NoteVerse/src/components/NotesApp.jsx:127-133 | updating an absent id changes nothing |
| NotesView.DeleteNote | NoteVerse/src/components/NotesApp.jsx:135-143 | exactly the notes with other ids stay, and the selected or edited note is closed iff it has the id |
| NotesView.DeleteIdempotent | NoteVerse/src/components/NotesApp.jsx:135-143 | deleting twice is deleting once |
| NotesView.DeleteUndoesCreate | NoteVerse/src/components/NotesApp.jsx:111-143 | deleting a note just created, when its id was new, restores the list |
| NotesView.Find | NoteVerse/src/components/NotesApp.jsx:146 | `find`: none iff no note has the id, otherwise the first match |
| NotesView.FindFirst | NoteVerse/src/components/NotesApp.jsx:146 | a match with no earlier match is the one `find` returns |
| NotesView.ToggleFavorite | NoteVerse/src/components/NotesApp.jsx:145-147 | fails iff no note has the id; otherwise every note with the id takes the negated flag of the first match, and other notes are untouched |
| NotesView.ToggleTwice | NoteVerse/src/components/NotesApp.jsx:145-147 | toggling twice gives the note back its flag; only its time moves |
| NotesView.AddTag | NoteVerse/src/components/NotesApp.jsx:170-180 | a blank tag or no open note changes nothing; otherwise the trimmed, lower-cased tag is appended at the end and the input is cleared |
| NotesView.RemoveTag | NoteVerse/src/components/NotesApp.jsx:182-190 | every copy of the tag leaves the open note and the other tags keep their order |
| NotesView.RemoveUndoesAdd | NoteVerse/src/components/NotesApp.jsx:170-190 | removing the tag just added, when it was new, restores the note |
| NotesView.DropAppended | NoteVerse/src/components/NotesApp.jsx:185 | filtering a new tag out of a list that ends with it gives the list before it |

## Left out

- Storage encoding: the `localStorage` key layout, JSON (de)serialisation, the `noteverse_initialized` flag and the Electron check are not modelled. The store is the value of its collections, and a first run starts empty. Storage never throws, so the `try`/`catch` paths that log a storage error and return an empty list are not modelled.
- Plain reads: `getAllNotes`, `getSpotifyTracks`, `getPinterestImages` and `getSyncLog` are reads of `Database` fields. `close` does nothing.
- Extra keys: JavaScript objects can carry keys the records do not have, and the model does not track them. Examples are the attachment lists `getNoteById` writes onto the returned note, and unknown keys in a patch or theme.
- Randomness: `Math.random` in the device id is the store's `salt`.
- Network details: URLs, headers, the bearer token (`getAuthToken`) and HTTP status text are not modelled. The transport's script decides every outcome.
- SyncEngine.Pulled: a remote change is assumed to carry a note. In the source, a `create`, `update` or `delete` change without `note` throws a TypeError that escapes `applyRemoteChange`'s own catch (syncService.js:122, 136, 158, 166) and is swallowed by `pullRemoteChanges` (syncService.js:110-112). The rest of the batch is then skipped and `lastSyncTime` is not written, so a server that keeps sending such a change stalls the pull. The model has no such change, and its last-sync promise covers only replies whose changes all carry a note.
- Asynchrony: concurrency between awaited calls is not modelled beyond the single-flight flag. Each method runs to completion.
- SyncEngine.SyncService.SyncWhenOnline: does not model that the source starts the queue replay without awaiting it, so replay and sync can interleave. The model runs the replay to completion before the pass.
- Timers and window events: `setInterval`, the `online`/`offline` listeners and the colour-scheme listener are not modelled as such. The timer ticks are `TimerTick` and `AutoThemeCheck`, and the network events are `GoOnline` and `GoOffline`. Each is called explicitly, with the hour as a parameter.
- Conflict notifications: the `CustomEvent` sent for a conflict is the `notices` log, and its DOM dispatch is not modelled.
- The theme service's DOM and observers: `applyTheme`, CSS variables, `generateThemeCSS` and the observer set are not modelled. The same goes for `destroy` and the `initialize` failure fallback.
- Preset themes: their section values are opaque constant data, a parameter constrained only in ids, names and kinds.
- Unexpected setting kinds: a `custom_themes` or `current_theme` setting holding some other kind of value is read as absent.
- Text handling: `toLowerCase` is modelled for ASCII letters only, and `formatDate`, locale formatting and Unicode case mapping are not modelled.
- LocalStore.Created: the note's id and both of its time stamps come from one reading of the clock. In the source they are three readings (`Date.now()` and two `new Date()`).
- LocalStore.Logged: the entry's id and time stamp come from one reading of the clock. In the source they are two readings.
- LocalStore.WithTrack: the track's id and `added_at` come from one reading of the clock. In the source they are two readings (`Date.now()` and `new Date()`).
- LocalStore.WithImage: the image's id and `added_at` come from one reading of the clock. In the source they are two readings (`Date.now()` and `new Date()`).
- NotesView.CreateNewNote: the id and both time stamps are one instant `now`. In the source they are three readings of the clock.
- Other NotesApp.jsx code: the sample notes, `startEditing`, `saveNote`, `cancelEditing`, the settings panel, and export/import through `Blob` and `FileReader` are not modelled. The setters are trivial, and the rest is user-interface state or file I/O.
