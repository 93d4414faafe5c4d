/** The local note store of src/services/database.js.

    The source keeps six collections in `localStorage` (notes, sync log,
    Spotify tracks, Pinterest images, settings, device id); every operation
    reads a collection, changes it and writes it back. Here the collections
    are the fields of class `Database`; the value `Store` gathers them, and
    one pure function per operation (`Created`, `Updated`, `Deleted`, ...)
    states what the operation leaves behind. Each method of `Database` is
    proved to leave exactly that state, and the sync engine is specified in
    terms of these functions.

    The wall clock (`Date.now()`, `new Date()`) is the field `clock`: each
    object literal that reads the time reads it once, and the clock then moves
    on by one millisecond. The ids the source derives from the time are made
    from the clock; nothing here promises that no stored item already has one. */
module LocalStore {
  import opened Util
  import opened Records

  datatype StoreError = NotFound

  datatype Store = Store(
    notes: seq<Note>,
    syncLog: seq<LogEntry>,
    tracks: seq<Track>,
    images: seq<Image>,
    settings: map<string, Value>,
    deviceId: Option<string>,
    clock: nat,
    salt: string)

  /** A note together with the attachments `getNoteById` collects for it. */
  datatype NoteDetail = NoteDetail(note: Note, tracks: seq<Track>, images: seq<Image>)

  /** The notes, the sync log, the attachments and the settings are the same in `a` and `b`. */
  predicate SameData(a: Store, b: Store)
  {
    a.notes == b.notes && a.syncLog == b.syncLog && a.tracks == b.tracks
    && a.images == b.images && a.settings == b.settings && a.salt == b.salt
  }

  /** `log` is `before` with one entry for `noteId` and `action` added at the end. */
  predicate AppendedOne(before: seq<LogEntry>, log: seq<LogEntry>, noteId: NoteId, action: Action, snapshot: Payload)
  {
    |log| == |before| + 1 && log[..|before|] == before
    && log[|before|].noteId == noteId && log[|before|].action == action && log[|before|].snapshot == snapshot
  }

  /** One reading of the wall clock. */
  function Tick(s: Store): (Store, nat)
  {
    (s.(clock := s.clock + 1), s.clock)
  }

  // ---------------------------------------------------------------- device id

  /** `'web_' + Date.now() + '_' + <random>` (database.js:293); `salt` stands for
      the random part. */
  function NewDeviceId(now: nat, salt: string): (id: string)
    ensures |id| > 4 && id[..4] == "web_"
  {
    "web_" + NatToString(now) + "_" + salt
  }

  /** The store after `getDeviceId`, and the id it returns (database.js:290-297):
      the stored id, or a new one that is stored first. */
  function WithDeviceId(s: Store): (r: (Store, string))
    ensures r.0.deviceId == Some(r.1) && r.1 != ""
    ensures SameData(r.0, s)
    ensures s.deviceId.Some? && s.deviceId.value != "" ==> r == (s, s.deviceId.value)
    ensures s.deviceId.None? || s.deviceId.value == "" ==> r.1 == NewDeviceId(s.clock, s.salt) && r.0.clock == s.clock + 1
  {
    if s.deviceId.Some? && s.deviceId.value != "" then (s, s.deviceId.value)
    else
      var (s1, t) := Tick(s);
      var id := NewDeviceId(t, s.salt);
      (s1.(deviceId := Some(id)), id)
  }

  /** Every call to `getDeviceId` after the first returns the same id and changes nothing. */
  lemma DeviceIdStable(s: Store)
    ensures WithDeviceId(WithDeviceId(s).0) == WithDeviceId(s)
  {
  }

  // ---------------------------------------------------------------- sync log

  /** The store after `logSyncAction(noteId, action, data)` (database.js:237-254):
      one entry appended at the end, nothing else in the log touched. */
  function Logged(s: Store, noteId: NoteId, action: Action, snapshot: Payload): (r: Store)
    ensures AppendedOne(s.syncLog, r.syncLog, noteId, action, snapshot)
    ensures r.syncLog[|s.syncLog|].id == s.clock && r.syncLog[|s.syncLog|].timestamp == s.clock
    ensures r.deviceId.Some? && r.syncLog[|s.syncLog|].deviceId == r.deviceId.value
    ensures r.notes == s.notes && r.tracks == s.tracks && r.images == s.images && r.settings == s.settings
    ensures s.deviceId.Some? && s.deviceId.value != "" ==> r.deviceId == s.deviceId
    ensures r.clock > s.clock
  {
    var (s1, t) := Tick(s);
    var (s2, dev) := WithDeviceId(s1);
    s2.(syncLog := s2.syncLog + [LogEntry(t, noteId, action, dev, t, snapshot)])
  }

  // ------------------------------------------------------------------- notes

  /** JavaScript `x || fallback` on an optional string: an absent or empty value falls back. */
  function OrElse(x: Option<string>, fallback: string): (r: string)
    ensures x.Some? && x.value != "" ==> r == x.value
    ensures x.None? || x.value == "" ==> r == fallback
  {
    if x.Some? && x.value != "" then x.value else fallback
  }

  /** JavaScript `x || null` on an optional string. */
  function OrNull(x: Option<string>): (r: Option<string>)
    ensures r.Some? <==> x.Some? && x.value != ""
    ensures r.Some? ==> r == x
  {
    if x.Some? && x.value != "" then x else None
  }

  /** The note literal of `createNote` (database.js:52-65). */
  function NewNote(d: NoteDraft, now: nat, device: string): Note
  {
    Note(now, d.title, OrElse(d.content, ""), OrElse(d.category, "ideas"), OrNull(d.backgroundImage),
         OrNull(d.backgroundColor), if d.themeSettings.Some? then d.themeSettings.value else map[],
         now, now, Pending, device, 1)
  }

  /** The store after `createNote(draft)` and the note it returns (database.js:49-78).
      The new note is first in the list, has version 1, is pending, and takes its id
      from the clock: the draft's own id, sync status and version are ignored. */
  function Created(s: Store, d: NoteDraft): (r: (Store, Note))
    ensures r.1.id == s.clock && r.1.version == 1 && r.1.syncStatus == Pending
    ensures r.1.createdAt == s.clock && r.1.updatedAt == s.clock
    ensures r.1.title == d.title && r.1.content == OrElse(d.content, "")
    ensures r.1.category == OrElse(d.category, "ideas")
    ensures r.0.notes == [r.1] + s.notes
    ensures AppendedOne(s.syncLog, r.0.syncLog, r.1.id, Create, DraftData(d))
    ensures r.0.tracks == s.tracks && r.0.images == s.images && r.0.settings == s.settings
    ensures r.0.deviceId == Some(r.1.deviceId)
    ensures s.deviceId.Some? && s.deviceId.value != "" ==> r.1.deviceId == s.deviceId.value
    ensures r.0.clock > s.clock
  {
    var (s1, t) := Tick(s);
    var (s2, dev) := WithDeviceId(s1);
    var note := NewNote(d, t, dev);
    (Logged(s2.(notes := [note] + s2.notes), note.id, Create, DraftData(d)), note)
  }

  /** JavaScript `notes.findIndex(n => n.id === id)`, with `None` for -1. */
  function FindIndex(notes: seq<Note>, id: NoteId): (r: Option<nat>)
    ensures r.None? <==> forall k :: 0 <= k < |notes| ==> notes[k].id != id
    ensures r.Some? ==> r.value < |notes| && notes[r.value].id == id
    ensures r.Some? ==> forall k :: 0 <= k < r.value ==> notes[k].id != id
  {
    if notes == [] then None
    else if notes[0].id == id then Some(0)
    else
      var rest := FindIndex(notes[1..], id);
      if rest.None? then None else Some(rest.value + 1)
  }

  /** `{ ...note, ...updates }`: a key present in the updates wins, an absent key keeps the note's value. */
  function ApplyPatch(n: Note, p: NotePatch): (r: Note)
    ensures r.title == Override(p.title, n.title) && r.content == Override(p.content, n.content)
    ensures r.category == Override(p.category, n.category) && r.version == Override(p.version, n.version)
    ensures r.syncStatus == Override(p.syncStatus, n.syncStatus)
    ensures r.id == Override(p.id, n.id) && r.deviceId == Override(p.deviceId, n.deviceId)
    ensures r.createdAt == Override(p.createdAt, n.createdAt) && r.updatedAt == Override(p.updatedAt, n.updatedAt)
    ensures r.backgroundImage == Override(p.backgroundImage, n.backgroundImage)
    ensures r.backgroundColor == Override(p.backgroundColor, n.backgroundColor)
    ensures r.themeSettings == Override(p.themeSettings, n.themeSettings)
  {
    Note(Override(p.id, n.id), Override(p.title, n.title), Override(p.content, n.content),
         Override(p.category, n.category), Override(p.backgroundImage, n.backgroundImage),
         Override(p.backgroundColor, n.backgroundColor), Override(p.themeSettings, n.themeSettings),
         Override(p.createdAt, n.createdAt), Override(p.updatedAt, n.updatedAt),
         Override(p.syncStatus, n.syncStatus), Override(p.deviceId, n.deviceId), Override(p.version, n.version))
  }

  /** Two notes agree on everything except `updatedAt`, `syncStatus` and `version`. */
  predicate SameContent(a: Note, b: Note)
  {
    a.(updatedAt := 0, syncStatus := Pending, version := 0) == b.(updatedAt := 0, syncStatus := Pending, version := 0)
  }

  /** The store after `updateNote(id, updates)` and the note it returns (database.js:109-136).
      An id that no note has is `NotFound` and changes nothing. Otherwise the first note
      with that id becomes the old note overridden by the updates, and then, whatever the
      updates said, is pending with its version one higher; it keeps its place and every
      other note is unchanged; one `update` entry is logged. */
  function Updated(s: Store, id: NoteId, p: NotePatch): (r: Result<(Store, Note), StoreError>)
    ensures r.Err? <==> forall k :: 0 <= k < |s.notes| ==> s.notes[k].id != id
    ensures r.Ok? ==> FindIndex(s.notes, id).Some?
    ensures r.Ok? ==>
      var i := FindIndex(s.notes, id).value;
      var n := r.value.1;
      && |r.value.0.notes| == |s.notes| && r.value.0.notes[i] == n
      && (forall k :: 0 <= k < |s.notes| && k != i ==> r.value.0.notes[k] == s.notes[k])
      && SameContent(n, ApplyPatch(s.notes[i], p))
      && n.syncStatus == Pending && n.version == s.notes[i].version + 1 && n.updatedAt == s.clock
      && AppendedOne(s.syncLog, r.value.0.syncLog, id, Update, PatchData(p))
      && r.value.0.tracks == s.tracks && r.value.0.images == s.images && r.value.0.settings == s.settings
      && r.value.0.clock > s.clock
  {
    match FindIndex(s.notes, id)
    case None => Err(NotFound)
    case Some(i) =>
      var (s1, t) := Tick(s);
      var current := s.notes[i];
      var updated := ApplyPatch(current, p).(updatedAt := t, syncStatus := Pending, version := current.version + 1);
      Ok((Logged(s1.(notes := s1.notes[i := updated]), id, Update, PatchData(p)), updated))
  }

  /** Keeps the notes whose id is not `id`. */
  function NotId(id: NoteId): Note -> bool
  {
    (n: Note) => n.id != id
  }

  function WithoutId(notes: seq<Note>, id: NoteId): (r: seq<Note>)
    ensures forall n :: n in r <==> n in notes && n.id != id
  {
    Filter(notes, NotId(id))
  }

  /** The store after `deleteNote(id)` and its result (database.js:138-152): every note with
      that id is gone, the others stay in order, the result is `true` even when nothing
      matched, attached tracks and images are left in place, and a `delete` entry is logged. */
  function Deleted(s: Store, id: NoteId): (r: (Store, bool))
    ensures r.1
    ensures r.0.notes == WithoutId(s.notes, id)
    ensures forall n :: n in r.0.notes <==> n in s.notes && n.id != id
    ensures AppendedOne(s.syncLog, r.0.syncLog, id, Delete, IdData(id))
    ensures r.0.tracks == s.tracks && r.0.images == s.images && r.0.settings == s.settings
  {
    (Logged(s.(notes := WithoutId(s.notes, id)), id, Delete, IdData(id)), true)
  }

  /** Deleting keeps the surviving notes in their order: it distributes over concatenation. */
  lemma DeleteKeepsOrder(a: seq<Note>, b: seq<Note>, id: NoteId)
    ensures WithoutId(a + b, id) == WithoutId(a, id) + WithoutId(b, id)
  {
    FilterAppend(a, b, NotId(id));
  }

  /** Deleting an id no note has leaves the list as it was. */
  lemma DeleteAbsentKeepsNotes(s: Store, id: NoteId)
    requires forall k :: 0 <= k < |s.notes| ==> s.notes[k].id != id
    ensures Deleted(s, id).0.notes == s.notes
  {
    FilterKeepsAll(s.notes, NotId(id));
  }

  /** The store after `markAsSynced(id)` (database.js:276-288): only the sync status of the
      first note with that id changes, to synced; an absent id changes nothing. */
  function MarkedSynced(s: Store, id: NoteId): (r: Store)
    ensures FindIndex(s.notes, id).None? ==> r == s
    ensures FindIndex(s.notes, id).Some? ==>
      var i := FindIndex(s.notes, id).value;
      && |r.notes| == |s.notes|
      && r.notes[i].syncStatus == Synced && SameContent(r.notes[i], s.notes[i])
      && r.notes[i].version == s.notes[i].version && r.notes[i].updatedAt == s.notes[i].updatedAt
      && (forall k :: 0 <= k < |s.notes| && k != i ==> r.notes[k] == s.notes[k])
      && r == s.(notes := r.notes)
  {
    match FindIndex(s.notes, id)
    case None => s
    case Some(i) => s.(notes := s.notes[i := s.notes[i].(syncStatus := Synced)])
  }

  /** Marking a note synced a second time changes nothing. */
  lemma {:induction false} MarkSyncedIdempotent(s: Store, id: NoteId)
    ensures MarkedSynced(MarkedSynced(s, id), id) == MarkedSynced(s, id)
  {
    var once := MarkedSynced(s, id);
    if FindIndex(s.notes, id).Some? {
      var i := FindIndex(s.notes, id).value;
      FindIndexStable(s.notes, once.notes, id, i);
      assert once.notes[i := once.notes[i].(syncStatus := Synced)] == once.notes;
    }
  }

  /** A note with the id, with no note of that id before it, is the one `findIndex` finds. */
  lemma {:induction false} FirstMatchIsFound(b: seq<Note>, id: NoteId, i: nat)
    requires i < |b| && b[i].id == id
    requires forall k :: 0 <= k < i ==> b[k].id != id
    ensures FindIndex(b, id) == Some(i)
  {
    if i > 0 {
      FirstMatchIsFound(b[1..], id, i - 1);
    }
  }

  /** Changing notes at or after the first match, while keeping the id of the first match,
      does not move the first match. */
  lemma FindIndexStable(a: seq<Note>, b: seq<Note>, id: NoteId, i: nat)
    requires FindIndex(a, id) == Some(i) && |b| == |a|
    requires b[i].id == id
    requires forall k :: 0 <= k < i ==> b[k] == a[k]
    ensures FindIndex(b, id) == Some(i)
  {
    FirstMatchIsFound(b, id, i);
  }

  function IsPendingNote(n: Note): bool
  {
    n.syncStatus == Pending
  }

  /** `getPendingSyncItems` (database.js:266-274): exactly the pending notes, in list order. */
  function PendingSyncItems(notes: seq<Note>): (r: seq<Note>)
    ensures forall n :: n in r <==> n in notes && n.syncStatus == Pending
    ensures |r| <= |notes|
  {
    Filter(notes, IsPendingNote)
  }

  /** The pending items of a list split in two are those of the front followed by those of the back. */
  lemma PendingKeepsOrder(a: seq<Note>, b: seq<Note>)
    ensures PendingSyncItems(a + b) == PendingSyncItems(a) + PendingSyncItems(b)
  {
    FilterAppend(a, b, IsPendingNote);
  }

  /** A freshly created note heads the pending items, ahead of those that were there. */
  lemma CreatedNoteIsFirstPending(s: Store, d: NoteDraft)
    ensures PendingSyncItems(Created(s, d).0.notes) == [Created(s, d).1] + PendingSyncItems(s.notes)
  {
    var n := Created(s, d).1;
    PendingKeepsOrder([n], s.notes);
    assert PendingSyncItems([n]) == [n] by {
      assert [n][1..] == [];
    }
  }

  /** Two successive updates of the same note raise its version by two, and it stays pending. */
  lemma UpdatesCountVersions(s: Store, id: NoteId, p: NotePatch, q: NotePatch)
    requires Updated(s, id, p).Ok?
    requires p.id.None? || p.id.value == id
    ensures Updated(Updated(s, id, p).value.0, id, q).Ok?
    ensures Updated(Updated(s, id, p).value.0, id, q).value.1.version
         == s.notes[FindIndex(s.notes, id).value].version + 2
    ensures Updated(Updated(s, id, p).value.0, id, q).value.1.syncStatus == Pending
  {
    var i := FindIndex(s.notes, id).value;
    var s1 := Updated(s, id, p).value.0;
    var n1 := Updated(s, id, p).value.1;
    assert n1.id == id by { assert SameContent(n1, ApplyPatch(s.notes[i], p)); }
    FindIndexStable(s.notes, s1.notes, id, i);
  }

  // ------------------------------------------------------------- attachments

  function ForNoteTrack(id: NoteId): Track -> bool
  {
    (t: Track) => t.noteId == id
  }

  function ForNoteImage(id: NoteId): Image -> bool
  {
    (m: Image) => m.noteId == id
  }

  /** `getSpotifyTracksByNoteId` (database.js:191-194): the tracks of that note, in order. */
  function TracksOf(tracks: seq<Track>, id: NoteId): (r: seq<Track>)
    ensures forall t :: t in r <==> t in tracks && t.noteId == id
  {
    Filter(tracks, ForNoteTrack(id))
  }

  /** `getPinterestImagesByNoteId` (database.js:231-234): the images of that note, in order. */
  function ImagesOf(images: seq<Image>, id: NoteId): (r: seq<Image>)
    ensures forall m :: m in r <==> m in images && m.noteId == id
  {
    Filter(images, ForNoteImage(id))
  }

  /** The store after `addSpotifyTrack(noteId, data)` and the track it returns (database.js:155-179):
      a new track with play count 0 appended at the end; the note is not checked to exist. */
  function WithTrack(s: Store, id: NoteId, data: TrackData): (r: (Store, Track))
    ensures r.0.tracks == s.tracks + [r.1]
    ensures r.1.noteId == id && r.1.data == data && r.1.playCount == 0 && r.1.id == s.clock
    ensures r.0.notes == s.notes && r.0.syncLog == s.syncLog && r.0.images == s.images && r.0.settings == s.settings
  {
    var (s1, t) := Tick(s);
    var track := Track(t, id, data, 0, t);
    (s1.(tracks := s1.tracks + [track]), track)
  }

  /** The store after `addPinterestImage(noteId, data)` and the image it returns (database.js:197-219). */
  function WithImage(s: Store, id: NoteId, data: ImageData): (r: (Store, Image))
    ensures r.0.images == s.images + [r.1]
    ensures r.1.noteId == id && r.1.data == data && r.1.id == s.clock
    ensures r.0.notes == s.notes && r.0.syncLog == s.syncLog && r.0.tracks == s.tracks && r.0.settings == s.settings
  {
    var (s1, t) := Tick(s);
    var image := Image(t, id, data, t);
    (s1.(images := s1.images + [image]), image)
  }

  /** `getNoteById(id)` (database.js:80-97): the first note with that id, with the tracks and
      images attached to that id, or `None`. */
  function NoteById(s: Store, id: NoteId): (r: Option<NoteDetail>)
    ensures r.None? <==> forall k :: 0 <= k < |s.notes| ==> s.notes[k].id != id
    ensures r.Some? ==> r.value.note == s.notes[FindIndex(s.notes, id).value] && r.value.note.id == id
    ensures r.Some? ==> r.value.tracks == TracksOf(s.tracks, id) && r.value.images == ImagesOf(s.images, id)
  {
    match FindIndex(s.notes, id)
    case None => None
    case Some(i) => Some(NoteDetail(s.notes[i], TracksOf(s.tracks, id), ImagesOf(s.images, id)))
  }

  /** Deleting a note leaves its tracks and images reachable by its id. */
  lemma DeleteKeepsAttachments(s: Store, id: NoteId)
    ensures TracksOf(Deleted(s, id).0.tracks, id) == TracksOf(s.tracks, id)
    ensures ImagesOf(Deleted(s, id).0.images, id) == ImagesOf(s.images, id)
  {
  }

  // ---------------------------------------------------------------- settings

  /** `getSetting(key)` (database.js:300-309). */
  function SettingOf(s: Store, key: string): Option<Value>
  {
    if key in s.settings then Some(s.settings[key]) else None
  }

  /** The store after `setSetting(key, value)` (database.js:311-320). */
  function WithSetting(s: Store, key: string, value: Value): (r: Store)
    ensures SettingOf(r, key) == Some(value)
    ensures forall k :: k != key ==> SettingOf(r, k) == SettingOf(s, k)
    ensures r.notes == s.notes && r.syncLog == s.syncLog && r.tracks == s.tracks && r.images == s.images
    ensures r.deviceId == s.deviceId && r.clock == s.clock && r.salt == s.salt
  {
    s.(settings := s.settings[key := value])
  }

  // ------------------------------------------------------------------ object

  /** The `DatabaseService` singleton. */
  class Database {
    var notes: seq<Note>
    var syncLog: seq<LogEntry>
    var tracks: seq<Track>
    var images: seq<Image>
    var settings: map<string, Value>
    var deviceId: Option<string>
    var clock: nat
    const salt: string

    function State(): Store
      reads this
    {
      Store(notes, syncLog, tracks, images, settings, deviceId, clock, salt)
    }

    /** `initializeWebStorage` on first run: every collection empty. `start` is the
        time the store opens at and `salt` the random part of the device id it will generate. */
    constructor (start: nat, salt: string)
      ensures State() == Store([], [], [], [], map[], None, start, salt)
    {
      notes, syncLog, tracks, images := [], [], [], [];
      settings, deviceId, clock := map[], None, start;
      this.salt := salt;
    }

    /** Reads the wall clock. */
    method Now() returns (t: nat)
      modifies this
      ensures (State(), t) == Tick(old(State()))
    {
      t := clock;
      clock := clock + 1;
    }

    method GetDeviceId() returns (id: string)
      modifies this
      ensures (State(), id) == WithDeviceId(old(State()))
    {
      if deviceId.None? || deviceId.value == "" {
        var t := Now();
        deviceId := Some(NewDeviceId(t, salt));
      }
      id := deviceId.value;
    }

    method LogSyncAction(noteId: NoteId, action: Action, snapshot: Payload)
      modifies this
      ensures State() == Logged(old(State()), noteId, action, snapshot)
    {
      var t := Now();
      var dev := GetDeviceId();
      syncLog := syncLog + [LogEntry(t, noteId, action, dev, t, snapshot)];
    }

    method CreateNote(draft: NoteDraft) returns (note: Note)
      modifies this
      ensures (State(), note) == Created(old(State()), draft)
    {
      var t := Now();
      var dev := GetDeviceId();
      note := NewNote(draft, t, dev);
      notes := [note] + notes;
      LogSyncAction(note.id, Create, DraftData(draft));
    }

    function GetNoteById(id: NoteId): Option<NoteDetail>
      reads this
    {
      NoteById(State(), id)
    }

    method UpdateNote(id: NoteId, updates: NotePatch) returns (r: Result<Note, StoreError>)
      modifies this
      ensures Updated(old(State()), id, updates).Err? ==> r == Err(NotFound) && State() == old(State())
      ensures Updated(old(State()), id, updates).Ok? ==>
        r == Ok(Updated(old(State()), id, updates).value.1) && State() == Updated(old(State()), id, updates).value.0
    {
      var found := FindIndex(notes, id);
      if found.None? {
        return Err(NotFound);
      }
      var i := found.value;
      var t := Now();
      var current := notes[i];
      var updated := ApplyPatch(current, updates).(updatedAt := t, syncStatus := Pending, version := current.version + 1);
      notes := notes[i := updated];
      LogSyncAction(id, Update, PatchData(updates));
      r := Ok(updated);
    }

    method DeleteNote(id: NoteId) returns (ok: bool)
      modifies this
      ensures (State(), ok) == Deleted(old(State()), id)
    {
      notes := WithoutId(notes, id);
      LogSyncAction(id, Delete, IdData(id));
      ok := true;
    }

    method AddSpotifyTrack(noteId: NoteId, data: TrackData) returns (track: Track)
      modifies this
      ensures (State(), track) == WithTrack(old(State()), noteId, data)
    {
      var t := Now();
      track := Track(t, noteId, data, 0, t);
      tracks := tracks + [track];
    }

    function GetSpotifyTracksByNoteId(id: NoteId): seq<Track>
      reads this
    {
      TracksOf(tracks, id)
    }

    method AddPinterestImage(noteId: NoteId, data: ImageData) returns (image: Image)
      modifies this
      ensures (State(), image) == WithImage(old(State()), noteId, data)
    {
      var t := Now();
      image := Image(t, noteId, data, t);
      images := images + [image];
    }

    function GetPinterestImagesByNoteId(id: NoteId): seq<Image>
      reads this
    {
      ImagesOf(images, id)
    }

    function GetPendingSyncItems(): seq<Note>
      reads this
    {
      PendingSyncItems(notes)
    }

    method MarkAsSynced(id: NoteId)
      modifies this
      ensures State() == MarkedSynced(old(State()), id)
    {
      var found := FindIndex(notes, id);
      if found.Some? {
        var i := found.value;
        notes := notes[i := notes[i].(syncStatus := Synced)];
      }
    }

    function GetSetting(key: string): Option<Value>
      reads this
    {
      SettingOf(State(), key)
    }

    method SetSetting(key: string, value: Value)
      modifies this
      ensures State() == WithSetting(old(State()), key, value)
    {
      settings := settings[key := value];
    }
  }
}
