/** The shapes of the records NoteVerse keeps in its local store
    (src/services/database.js) and exchanges with the sync server
    (src/services/syncService.js), plus the theme documents the theme
    registry persists (src/services/themeService.js).

    Timestamps are ISO-8601 strings in the source (`new Date().toISOString()`),
    always of one fixed format, so their lexicographic order is their
    chronological order; they are modelled as integers (milliseconds since
    1970-01-01T00:00:00Z). */
module Records {
  import opened Util

  /** A note id is `Date.now()` at creation: a non-negative integer. */
  type NoteId = nat

  datatype SyncStatus = Pending | Synced

  /** A stored note (database.js:52-65). */
  datatype Note = Note(
    id: NoteId,
    title: string,
    content: string,
    category: string,
    backgroundImage: Option<string>,
    backgroundColor: Option<string>,
    themeSettings: map<string, string>,
    createdAt: int,
    updatedAt: int,
    syncStatus: SyncStatus,
    deviceId: string,
    version: int)

  /** The `noteData` object handed to `createNote`. A key that is absent is
      `None`; `id`, `syncStatus` and `version` are carried because callers pass
      them (a remote note spread into a draft), although `createNote` ignores them. */
  datatype NoteDraft = NoteDraft(
    id: Option<NoteId>,
    title: string,
    content: Option<string>,
    category: Option<string>,
    backgroundImage: Option<string>,
    backgroundColor: Option<string>,
    themeSettings: Option<map<string, string>>,
    syncStatus: Option<SyncStatus>,
    version: Option<int>)

  /** The `updates` object handed to `updateNote`: every key of a note may be
      present (`Some`) or absent (`None`). */
  datatype NotePatch = NotePatch(
    id: Option<NoteId>,
    title: Option<string>,
    content: Option<string>,
    category: Option<string>,
    backgroundImage: Option<Option<string>>,
    backgroundColor: Option<Option<string>>,
    themeSettings: Option<map<string, string>>,
    createdAt: Option<int>,
    updatedAt: Option<int>,
    syncStatus: Option<SyncStatus>,
    deviceId: Option<string>,
    version: Option<int>)

  /** `{ ...note, sync_status: 'synced' }` used as a draft (syncService.js:124-127, 150-153). */
  function DraftOf(n: Note): (d: NoteDraft)
    ensures d.id == Some(n.id) && d.title == n.title && d.content == Some(n.content)
    ensures d.syncStatus == Some(Synced) && d.version == Some(n.version)
  {
    NoteDraft(Some(n.id), n.title, Some(n.content), Some(n.category), n.backgroundImage,
              n.backgroundColor, Some(n.themeSettings), Some(Synced), Some(n.version))
  }

  /** `{ ...note, sync_status: 'synced' }` used as updates (syncService.js:142-145, 176-179),
      and a merged note used as updates (syncService.js:195). */
  function PatchOf(n: Note, status: SyncStatus): (p: NotePatch)
    ensures p.id == Some(n.id) && p.title == Some(n.title) && p.content == Some(n.content)
    ensures p.syncStatus == Some(status)
  {
    NotePatch(Some(n.id), Some(n.title), Some(n.content), Some(n.category), Some(n.backgroundImage),
              Some(n.backgroundColor), Some(n.themeSettings), Some(n.createdAt), Some(n.updatedAt),
              Some(status), Some(n.deviceId), Some(n.version))
  }

  datatype Action = Create | Update | Delete

  /** `data_snapshot` of a log entry: what the logged call was given. */
  datatype Payload = DraftData(draft: NoteDraft) | PatchData(patch: NotePatch) | IdData(noteId: NoteId)

  /** An entry of the append-only sync log (database.js:240-247). */
  datatype LogEntry = LogEntry(id: nat, noteId: NoteId, action: Action, deviceId: string, timestamp: int, snapshot: Payload)

  datatype TrackData = TrackData(spotifyId: string, trackName: string, artistName: string,
                                 albumName: string, previewUrl: string, externalUrl: string)

  /** A Spotify track attached to a note (database.js:158-169). */
  datatype Track = Track(id: nat, noteId: NoteId, data: TrackData, playCount: nat, addedAt: int)

  datatype ImageData = ImageData(pinterestId: string, imageUrl: string, thumbnailUrl: string,
                                 description: string, boardName: string)

  /** A Pinterest image attached to a note (database.js:200-209). */
  datatype Image = Image(id: nat, noteId: NoteId, data: ImageData, addedAt: int)

  // ------------------------------------------------------------ sync traffic

  datatype Method = Get | Post

  /** `/notes/sync` and `/notes/changes?since=<t>&device_id=<d>`. */
  datatype Endpoint = NotesSync | NotesChanges(since: int, deviceId: string)

  datatype Body = NoBody | SyncBody(note: Note, deviceId: string, timestamp: int)

  datatype Request = Request(verb: Method, endpoint: Endpoint, body: Body)

  /** An entry of the offline request queue (syncService.js:274-279). */
  datatype QueuedRequest = QueuedRequest(request: Request, timestamp: int)

  /** The record kept for a conflict under the `manual` policy (syncService.js:202-208).
      `remote` is `None` when the server flagged a conflict without sending its note. */
  datatype ConflictRecord = ConflictRecord(noteId: NoteId, local: Note, remote: Option<Note>, createdAt: int, resolved: bool)

  // ------------------------------------------------------------------ themes

  type Section = map<string, string>

  /** The seven key/value sections of a theme. */
  datatype Sections = Sections(colors: Section, fonts: Section, spacing: Section, borderRadius: Section,
                               shadows: Section, animations: Section, effects: Section)

  /** A theme document (themeService.js:37-101, 487-499). `kind` is the source's `type`. */
  datatype Theme = Theme(name: string, kind: string, sections: Sections, custom: bool,
                         createdAt: Option<int>, updatedAt: Option<int>)

  // ---------------------------------------------------------------- settings

  /** A value of the settings object: the source stores whatever JSON it likes
      under a key; these are the kinds of value the core stores. */
  datatype Value =
    | Flag(flag: bool)
    | Text(text: string)
    | Time(time: int)
    | Queue(requests: seq<QueuedRequest>)
    | Conflict(record: ConflictRecord)
    | Themes(table: map<string, Theme>)
}
