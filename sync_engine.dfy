/** The sync engine of src/services/syncService.js.

    The network is an oracle: class `Transport` answers each request with the
    next reply of a script fixed in advance (an exhausted script fails every
    request) and records every request it is sent. Every property below holds
    for every script, so it holds whatever the server and the network do.

    `World` gathers what a sync pass can change: the local store, the
    transport's script and log, and the conflict notifications sent to the UI.
    The pure functions `Call`, `ResolveConflict`, `ItemPushed`, `ChangeApplied`,
    `Pulled`, `Sync` and `ProcessQueue` state what each method of
    class `SyncService` leaves behind, and the methods are proved to leave exactly
    that. */
module SyncEngine {
  import opened Util
  import opened Records
  import opened LocalStore

  /** `conflictResolutionStrategy` (syncService.js:9). */
  datatype Strategy = LatestWins | Manual | Merge

  /** A remote change `{ action, note, timestamp }`; an action the engine does not
      know (anything but create, update or delete) is `None`. Every change carries a
      note: a change without one is not representable here. */
  datatype Change = Change(action: Option<Action>, note: Note, timestamp: int)

  /** What `makeApiRequest` yields: it throws (`Failed`: fetch rejected, HTTP status not ok,
      body not JSON) or returns the parsed body. A body without `changes` is an empty list. */
  datatype Reply =
    | Failed
    | Replied(success: bool, conflict: bool, remoteNote: Option<Note>, changes: seq<Change>)

  datatype World = World(store: Store, script: seq<Reply>, sent: seq<Request>, notices: seq<ConflictRecord>)

  datatype SyncError = CannotSyncWhileOffline

  /** What `getSyncStatus` reports (syncService.js:329-337). */
  datatype Status = Status(isOnline: bool, syncInProgress: bool, pendingItems: nat, queuedRequests: nat, lastSync: Option<Value>)

  const QueueKey := "queuedRequests"
  const LastSyncKey := "lastSyncTime"

  /** `conflict_<noteId>` (syncService.js:210). */
  function ConflictKey(id: NoteId): (k: string)
    ensures |k| > 9 && k[..9] == "conflict_"
  {
    "conflict_" + NatToString(id)
  }

  /** Two notes never share a conflict key, so one note's record never replaces another's. */
  lemma ConflictKeysDistinct(a: NoteId, b: NoteId)
    ensures ConflictKey(a) == ConflictKey(b) ==> a == b
  {
    if ConflictKey(a) == ConflictKey(b) {
      assert NatToString(a) == ConflictKey(a)[9..] == ConflictKey(b)[9..] == NatToString(b);
      NatToStringInjective(a, b);
    }
  }

  /** No conflict record overwrites the queue or the last sync time. */
  lemma ConflictKeysAreApart(id: NoteId)
    ensures ConflictKey(id) != QueueKey && ConflictKey(id) != LastSyncKey
  {
    assert ConflictKey(id)[0] == 'c';
  }

  /** `getSetting('queuedRequests') || []`. */
  function QueueOf(s: Store): seq<QueuedRequest>
  {
    var v := SettingOf(s, QueueKey);
    if v.Some? && v.value.Queue? then v.value.requests else []
  }

  /** `getSetting('lastSyncTime') || '1970-01-01T00:00:00Z'`. */
  function LastSyncTime(s: Store): int
  {
    var v := SettingOf(s, LastSyncKey);
    if v.Some? && v.value.Time? then v.value.time else 0
  }

  // --------------------------------------------------------------- transport

  /** The reply the transport gives next. */
  function NextReply(script: seq<Reply>): Reply
  {
    if script == [] then Failed else script[0]
  }

  /** The script once `n` replies have been given. */
  function Drop(script: seq<Reply>, n: nat): seq<Reply>
  {
    if n <= |script| then script[n..] else []
  }

  /** One request through the oracle. */
  function Send(w: World, req: Request): (World, Reply)
  {
    (w.(script := Drop(w.script, 1), sent := w.sent + [req]), NextReply(w.script))
  }

  /** The world after `queueOfflineRequest` (syncService.js:271-282): the request is
      appended at the end of the queue, stamped with the current time. */
  function Queued(w: World, req: Request): (r: World)
    ensures QueueOf(r.store) == QueueOf(w.store) + [QueuedRequest(req, w.store.clock)]
    ensures forall k :: k != QueueKey ==> SettingOf(r.store, k) == SettingOf(w.store, k)
    ensures r.store.notes == w.store.notes && r.store.syncLog == w.store.syncLog
    ensures r.script == w.script && r.sent == w.sent && r.notices == w.notices
  {
    var q := QueueOf(w.store);
    var (s1, t) := Tick(w.store);
    w.(store := WithSetting(s1, QueueKey, Queue(q + [QueuedRequest(req, t)])))
  }

  /** The world after `makeApiRequest(req)` and its reply (syncService.js:239-269): the
      request goes to the transport; a failure while offline also queues the request. */
  function Call(w: World, online: bool, req: Request): (r: (World, Reply))
    ensures r.1 == NextReply(w.script)
    ensures r.0.sent == w.sent + [req] && r.0.script == Drop(w.script, 1) && r.0.notices == w.notices
    ensures r.0.store.notes == w.store.notes && r.0.store.syncLog == w.store.syncLog
    ensures online || r.1.Replied? ==> r.0.store == w.store
    ensures !online && r.1.Failed? ==> QueueOf(r.0.store) == QueueOf(w.store) + [QueuedRequest(req, w.store.clock)]
    ensures forall k :: k != QueueKey ==> SettingOf(r.0.store, k) == SettingOf(w.store, k)
  {
    var (w1, reply) := Send(w, req);
    if reply.Failed? && !online then (Queued(w1, req), reply) else (w1, reply)
  }

  // ------------------------------------------------------- conflict handling

  const MergeMarker := "\n\n--- MERGED FROM OTHER DEVICE ---\n"

  /** `mergeNotes(local, remote)` (syncService.js:216-230). */
  function MergeNotes(local: Note, remote: Note): (m: Note)
    ensures local.content == remote.content ==> m.content == local.content
    ensures local.content != remote.content ==> m.content == local.content + MergeMarker + remote.content
    ensures m.title == (if remote.updatedAt > local.updatedAt then remote.title else local.title)
    ensures m.syncStatus == Synced
    ensures m.(content := local.content, title := local.title, syncStatus := local.syncStatus) == local
  {
    var content := if local.content != remote.content then local.content + MergeMarker + remote.content else local.content;
    local.(content := content,
           title := if remote.updatedAt > local.updatedAt then remote.title else local.title,
           syncStatus := Synced)
  }

  /** A merge loses no text: the merged content begins with the local content and ends
      with the remote content, and it holds the marker only when the two differ. */
  lemma MergeKeepsBothTexts(local: Note, remote: Note)
    ensures var c := MergeNotes(local, remote).content;
            && |local.content| <= |c| && c[..|local.content|] == local.content
            && |remote.content| <= |c| && c[|c| - |remote.content|..] == remote.content
            && (|c| == |local.content| <==> local.content == remote.content)
  {
    var c := MergeNotes(local, remote).content;
    if local.content != remote.content {
      assert c == local.content + MergeMarker + remote.content;
      assert c[|c| - |remote.content|..] == remote.content;
    }
  }

  /** What `handleConflict` decides to do (syncService.js:170-198). */
  datatype Resolution =
    | Overwrite(patch: NotePatch)     // `updateNote(local.id, patch)`
    | KeepLocal                       // latest-wins, remote not newer: nothing changes
    | Record(remote: Option<Note>)    // manual: store a conflict record, notify
    | Abandon                         // no remote note to compare with: the handler throws

  function Resolve(strategy: Strategy, local: Note, remote: Option<Note>): (r: Resolution)
    ensures r.Record? <==> strategy == Manual
    ensures r.Record? ==> r.remote == remote
    ensures r == Abandon <==> strategy != Manual && remote.None?
    ensures strategy == LatestWins && remote.Some? ==>
      (remote.value.updatedAt > local.updatedAt <==> r.Overwrite?) && (r.Overwrite? ==> r.patch == PatchOf(remote.value, Synced))
    ensures strategy == Merge && remote.Some? ==> r == Overwrite(PatchOf(MergeNotes(local, remote.value), Synced))
  {
    match strategy
    case LatestWins =>
      if remote.None? then Abandon
      else if remote.value.updatedAt > local.updatedAt then Overwrite(PatchOf(remote.value, Synced))
      else KeepLocal
    case Manual => Record(remote)
    case Merge =>
      if remote.None? then Abandon else Overwrite(PatchOf(MergeNotes(local, remote.value), Synced))
  }

  /** The world after `storeConflictForManualResolution(local, remote)` (syncService.js:200-214):
      the record is stored under `conflict_<id>` and announced once. */
  function RecordConflict(w: World, local: Note, remote: Option<Note>): (r: World)
    ensures SettingOf(r.store, ConflictKey(local.id)) == Some(Conflict(ConflictRecord(local.id, local, remote, w.store.clock, false)))
    ensures r.notices == w.notices + [ConflictRecord(local.id, local, remote, w.store.clock, false)]
    ensures forall k :: k != ConflictKey(local.id) ==> SettingOf(r.store, k) == SettingOf(w.store, k)
    ensures r.store.notes == w.store.notes && r.store.syncLog == w.store.syncLog
    ensures r.script == w.script && r.sent == w.sent
  {
    var (s1, t) := Tick(w.store);
    var record := ConflictRecord(local.id, local, remote, t, false);
    w.(store := WithSetting(s1, ConflictKey(local.id), Conflict(record)), notices := w.notices + [record])
  }

  /** The world after `handleConflict(local, remote)`. */
  function ResolveConflict(w: World, strategy: Strategy, local: Note, remote: Option<Note>): (r: World)
    ensures Quiet(w, r)
    ensures strategy != Manual ==> r.notices == w.notices
  {
    ConflictKeysAreApart(local.id);
    match Resolve(strategy, local, remote)
    case Overwrite(p) =>
      var u := Updated(w.store, local.id, p);
      if u.Ok? then w.(store := u.value.0) else w
    case Record(remote) => RecordConflict(w, local, remote)
    case KeepLocal => w
    case Abandon => w
  }

  /** Latest wins, remote strictly newer: the stored note takes the remote title and content.
      Because `updateNote` forces it, the note ends pending with its version one higher,
      although the handler asked for synced. */
  lemma LatestWinsTakesNewerRemote(w: World, local: Note, remote: Note)
    requires FindIndex(w.store.notes, local.id).Some?
    requires remote.updatedAt > local.updatedAt
    ensures var i := FindIndex(w.store.notes, local.id).value;
            var r := ResolveConflict(w, LatestWins, local, Some(remote));
            && |r.store.notes| == |w.store.notes|
            && r.store.notes[i].id == remote.id
            && r.store.notes[i].title == remote.title && r.store.notes[i].content == remote.content
            && r.store.notes[i].syncStatus == Pending && r.store.notes[i].version == w.store.notes[i].version + 1
            && (forall k :: 0 <= k < |w.store.notes| && k != i ==> r.store.notes[k] == w.store.notes[k])
  {
    var i := FindIndex(w.store.notes, local.id).value;
    var p := PatchOf(remote, Synced);
    var u := Updated(w.store, local.id, p);
    assert u.Ok?;
    assert SameContent(u.value.1, ApplyPatch(w.store.notes[i], p));
  }

  /** Latest wins, remote not newer (a tie included): nothing changes. */
  lemma LatestWinsKeepsLocalOnTie(w: World, local: Note, remote: Note)
    requires remote.updatedAt <= local.updatedAt
    ensures ResolveConflict(w, LatestWins, local, Some(remote)) == w
  {
  }

  /** Manual: exactly one record for the note is stored and announced, and no note changes. */
  lemma ManualRecordsBothVersions(w: World, local: Note, remote: Option<Note>)
    ensures var r := ResolveConflict(w, Manual, local, remote);
            && r.store.notes == w.store.notes
            && SettingOf(r.store, ConflictKey(local.id)) == Some(Conflict(ConflictRecord(local.id, local, remote, w.store.clock, false)))
            && r.notices == w.notices + [ConflictRecord(local.id, local, remote, w.store.clock, false)]
            && forall id :: id != local.id ==> SettingOf(r.store, ConflictKey(id)) == SettingOf(w.store, ConflictKey(id))
  {
    forall id | id != local.id
      ensures SettingOf(ResolveConflict(w, Manual, local, remote).store, ConflictKey(id)) == SettingOf(w.store, ConflictKey(id))
    {
      ConflictKeysDistinct(id, local.id);
    }
  }

  // ------------------------------------------------------------------ loops

  /* The three loops of the engine (push, pull, queue replay) are folds of a step function
     over a list. The lemmas below are about any step with a stated effect, so their proofs
     never look inside a step. */

  /** `after` is `before` followed by one request per element of `xs`, in order, the k-th
      answering `matches` for `xs[k]`. */
  predicate SentInOrder<X>(before: seq<Request>, after: seq<Request>, xs: seq<X>, matches: (Request, X) -> bool)
  {
    && |after| == |before| + |xs| && after[..|before|] == before
    && forall k :: 0 <= k < |xs| ==> matches(after[|before| + k], xs[k])
  }

  /** `r` is `v` after exactly one more request, for `x`, that used one reply. */
  predicate OneRequest<X>(v: World, r: World, x: X, matches: (Request, X) -> bool)
  {
    && |r.sent| == |v.sent| + 1 && r.sent[..|v.sent|] == v.sent && matches(r.sent[|v.sent|], x)
    && r.script == Drop(v.script, 1)
  }

  lemma SentInOrderGrows<X>(before: seq<Request>, mid: seq<Request>, after: seq<Request>, xs: seq<X>, x: X,
                            matches: (Request, X) -> bool)
    requires SentInOrder(before, mid, xs, matches)
    requires |after| == |mid| + 1 && after[..|mid|] == mid && matches(after[|mid|], x)
    ensures SentInOrder(before, after, xs + [x], matches)
  {
    forall k | 0 <= k < |xs| + 1
      ensures matches(after[|before| + k], (xs + [x])[k])
    {
      if k < |xs| {
        assert after[|before| + k] == mid[|before| + k];
      }
    }
    assert after[..|before|] == mid[..|before|];
  }

  /** A step that sends one request per element sends them all, in order, and uses one
      reply each. */
  lemma {:induction false} StepsSendInOrder<X(!new)>(w: World, step: (World, X) -> World, xs: seq<X>,
                                                    matches: (Request, X) -> bool)
    requires forall v: World, x: X :: OneRequest(v, step(v, x), x, matches)
    ensures SentInOrder(w.sent, FoldLeft(w, step, xs).sent, xs, matches)
    ensures FoldLeft(w, step, xs).script == Drop(w.script, |xs|)
  {
    if xs == [] {
      assert w.sent[..|w.sent|] == w.sent;
    } else {
      var front := xs[..|xs| - 1];
      StepsSendInOrder(w, step, front, matches);
      var mid := FoldLeft(w, step, front);
      assert OneRequest(mid, step(mid, xs[|xs| - 1]), xs[|xs| - 1], matches);
      assert front + [xs[|xs| - 1]] == xs;
      SentInOrderGrows(w.sent, mid.sent, FoldLeft(w, step, xs).sent, front, xs[|xs| - 1], matches);
    }
  }

  /** A step that changes no note when its request fails changes no note over a run of failures. */
  lemma {:induction false} StepsWithoutAnswers<X(!new)>(w: World, step: (World, X) -> World, xs: seq<X>,
                                                       matches: (Request, X) -> bool)
    requires forall v: World, x: X :: OneRequest(v, step(v, x), x, matches)
    requires forall v: World, x: X :: NextReply(v.script).Failed? ==> step(v, x).store.notes == v.store.notes
    requires forall k :: 0 <= k < |xs| && k < |w.script| ==> w.script[k].Failed?
    ensures FoldLeft(w, step, xs).store.notes == w.store.notes
  {
    if xs != [] {
      var front := xs[..|xs| - 1];
      StepsWithoutAnswers(w, step, front, matches);
      StepsSendInOrder(w, step, front, matches);
      var mid := FoldLeft(w, step, front);
      assert NextReply(mid.script).Failed? by {
        if |front| < |w.script| {
          assert mid.script[0] == w.script[|front|];
        }
      }
      assert step(mid, xs[|xs| - 1]).store.notes == mid.store.notes;
    }
  }

  /** The two settings the engine keeps for itself: the last sync time and the offline queue. */
  function Marks(settings: map<string, Value>): (Option<Value>, Option<Value>)
  {
    (if LastSyncKey in settings then Some(settings[LastSyncKey]) else None,
     if QueueKey in settings then Some(settings[QueueKey]) else None)
  }

  /** `r` sent nothing, used no reply, and left the queue and the last sync time alone. */
  predicate Quiet(v: World, r: World)
  {
    r.script == v.script && r.sent == v.sent && Marks(r.store.settings) == Marks(v.store.settings)
  }

  lemma {:induction false} QuietSteps<X(!new)>(w: World, step: (World, X) -> World, xs: seq<X>)
    requires forall v: World, x: X :: Quiet(v, step(v, x))
    ensures Quiet(w, FoldLeft(w, step, xs))
  {
    if xs != [] {
      QuietSteps(w, step, xs[..|xs| - 1]);
      var mid := FoldLeft(w, step, xs[..|xs| - 1]);
      assert Quiet(mid, step(mid, xs[|xs| - 1]));
    }
  }

  /** A step that changes no note changes no note over any run. */
  lemma {:induction false} StepsKeepNotes<X(!new)>(w: World, step: (World, X) -> World, xs: seq<X>)
    requires forall v: World, x: X :: step(v, x).store.notes == v.store.notes && step(v, x).notices == v.notices
    ensures FoldLeft(w, step, xs).store.notes == w.store.notes && FoldLeft(w, step, xs).notices == w.notices
  {
    if xs != [] {
      StepsKeepNotes(w, step, xs[..|xs| - 1]);
    }
  }

  // ------------------------------------------------------------------- push

  /** A request is the push of `item`: `POST /notes/sync` carrying that note. */
  predicate PushesNote(req: Request, item: Note)
  {
    req.verb == Post && req.endpoint == NotesSync && req.body.SyncBody? && req.body.note == item
  }

  /** The `POST /notes/sync` of `item` (syncService.js:72-78), stamped with the device id
      and the time, and its reply. */
  function Posted(w: World, online: bool, item: Note): (r: (World, Reply))
    ensures r.1 == NextReply(w.script) && r.0.notices == w.notices
  {
    var (s1, device) := WithDeviceId(w.store);
    var (s2, t) := Tick(s1);
    Call(w.(store := s2), online, Request(Post, NotesSync, SyncBody(item, device, t)))
  }

  /** The world after one iteration of the push loop (syncService.js:70-91). */
  function ItemPushed(w: World, strategy: Strategy, online: bool, item: Note): (r: World)
    ensures |r.sent| == |w.sent| + 1 && r.sent[..|w.sent|] == w.sent && PushesNote(r.sent[|w.sent|], item)
    ensures r.script == Drop(w.script, 1)
    ensures NextReply(w.script).Failed? ==> r.store.notes == w.store.notes && r.notices == w.notices
    ensures NextReply(w.script).Replied? && NextReply(w.script).success ==>
      r.store.notes == MarkedSynced(w.store, item.id).notes && r.notices == w.notices
    ensures NextReply(w.script).Replied? && !NextReply(w.script).success && !NextReply(w.script).conflict ==>
      r.store.notes == w.store.notes && r.notices == w.notices
    ensures NextReply(w.script).Replied? && !NextReply(w.script).success && NextReply(w.script).conflict ==>
      r == ResolveConflict(Posted(w, online, item).0, strategy, item, NextReply(w.script).remoteNote)
  {
    var (w1, reply) := Posted(w, online, item);
    if reply.Replied? && reply.success then w1.(store := MarkedSynced(w1.store, item.id))
    else if reply.Replied? && reply.conflict then ResolveConflict(w1, strategy, item, reply.remoteNote)
    else w1
  }

  /** The push loop's body as a step function. */
  function PushStep(strategy: Strategy, online: bool): (World, Note) -> World
  {
    (v: World, item: Note) => ItemPushed(v, strategy, online, item)
  }

  /** `pushLocalChanges` (syncService.js:60-92): the loop over the pending notes, first to last. */
  function Pushed(w: World, strategy: Strategy, online: bool): World
  {
    FoldLeft(w, PushStep(strategy, online), PendingSyncItems(w.store.notes))
  }

  /** The push sends one `POST /notes/sync` per item, in the items' order, and nothing else,
      and uses one reply per item. */
  lemma PushSendsOnePerItem(w: World, strategy: Strategy, online: bool, items: seq<Note>)
    ensures SentInOrder(w.sent, FoldLeft(w, PushStep(strategy, online), items).sent, items, PushesNote)
    ensures FoldLeft(w, PushStep(strategy, online), items).script == Drop(w.script, |items|)
  {
    forall v: World, item: Note
      ensures OneRequest(v, PushStep(strategy, online)(v, item), item, PushesNote)
    {
    }
    StepsSendInOrder(w, PushStep(strategy, online), items, PushesNote);
  }

  /** When every request of the push fails, no note changes: each failure skips only its note. */
  lemma PushWithoutAnswersKeepsNotes(w: World, strategy: Strategy, online: bool, items: seq<Note>)
    requires forall k :: 0 <= k < |items| && k < |w.script| ==> w.script[k].Failed?
    ensures FoldLeft(w, PushStep(strategy, online), items).store.notes == w.store.notes
  {
    forall v: World, item: Note
      ensures OneRequest(v, PushStep(strategy, online)(v, item), item, PushesNote)
      ensures NextReply(v.script).Failed? ==> PushStep(strategy, online)(v, item).store.notes == v.store.notes
    {
    }
    StepsWithoutAnswers(w, PushStep(strategy, online), items, PushesNote);
  }

  // ------------------------------------------------------------------- pull

  /** Where `applyRemoteChange` sends a change (syncService.js:115-168). */
  datatype Step = CreateLocal | UpdateLocal | ResolveWith(local: Note) | DeleteLocal | Ignore

  function Dispatch(local: Option<Note>, c: Change): (r: Step)
    ensures r.CreateLocal? <==> local.None? && (c.action == Some(Create) || c.action == Some(Update))
    ensures r.ResolveWith? <==> local.Some? && (c.action == Some(Create)
                                  || (c.action == Some(Update) && local.value.syncStatus == Pending
                                      && local.value.updatedAt > c.timestamp))
    ensures r.ResolveWith? ==> r.local == local.value
    ensures r.UpdateLocal? <==> local.Some? && c.action == Some(Update)
                                  && !(local.value.syncStatus == Pending && local.value.updatedAt > c.timestamp)
    ensures r.DeleteLocal? <==> local.Some? && c.action == Some(Delete)
    ensures r.Ignore? <==> c.action.None? || (local.None? && c.action == Some(Delete))
  {
    match c.action
    case None => Ignore
    case Some(Create) => if local.None? then CreateLocal else ResolveWith(local.value)
    case Some(Update) =>
      if local.None? then CreateLocal
      else if local.value.updatedAt > c.timestamp && local.value.syncStatus == Pending then ResolveWith(local.value)
      else UpdateLocal
    case Some(Delete) => if local.None? then Ignore else DeleteLocal
  }

  /** The local note a change is about, as `getNoteById` finds it. */
  function LocalNote(s: Store, id: NoteId): (r: Option<Note>)
    ensures r.None? <==> forall k :: 0 <= k < |s.notes| ==> s.notes[k].id != id
    ensures r.Some? ==> r.value == s.notes[FindIndex(s.notes, id).value]
  {
    var found := NoteById(s, id);
    if found.Some? then Some(found.value.note) else None
  }

  /** The world after `applyRemoteChange(change)`. */
  function ChangeApplied(w: World, strategy: Strategy, c: Change): (r: World)
    ensures Quiet(w, r)
  {
    match Dispatch(LocalNote(w.store, c.note.id), c)
    case CreateLocal => w.(store := Created(w.store, DraftOf(c.note)).0)
    case UpdateLocal =>
      var u := Updated(w.store, c.note.id, PatchOf(c.note, Synced));
      if u.Ok? then w.(store := u.value.0) else w
    case ResolveWith(local) => ResolveConflict(w, strategy, local, Some(c.note))
    case DeleteLocal => w.(store := Deleted(w.store, c.note.id).0)
    case Ignore => w
  }

  /** A remote delete removes every note with that id, pending or not, and keeps the others. */
  lemma RemoteDeleteIsUnconditional(w: World, strategy: Strategy, c: Change)
    requires c.action == Some(Delete)
    ensures forall n :: n in ChangeApplied(w, strategy, c).store.notes <==> n in w.store.notes && n.id != c.note.id
  {
    if LocalNote(w.store, c.note.id).None? {
      DeleteAbsentKeepsNotes(w.store, c.note.id);
    }
  }

  /** A remote create for an id the store lacks lands first in the list as a new pending
      note, version 1, under an id made from the clock rather than the remote id. */
  lemma RemoteCreateLandsPending(w: World, strategy: Strategy, c: Change)
    requires c.action == Some(Create)
    requires forall k :: 0 <= k < |w.store.notes| ==> w.store.notes[k].id != c.note.id
    ensures var notes := ChangeApplied(w, strategy, c).store.notes;
            && |notes| == |w.store.notes| + 1 && notes[1..] == w.store.notes
            && notes[0].id == w.store.clock && notes[0].syncStatus == Pending && notes[0].version == 1
            && notes[0].title == c.note.title && notes[0].content == c.note.content
  {
    var n := Created(w.store, DraftOf(c.note)).1;
    assert ([n] + w.store.notes)[1..] == w.store.notes;
  }

  /** A remote update of a note with nothing pending is applied, never treated as a conflict,
      whatever the timestamps: the note takes the remote title and content (and, through
      `updateNote`, ends pending with its version one higher). */
  lemma RemoteUpdateOfSyncedNoteApplies(w: World, strategy: Strategy, c: Change)
    requires c.action == Some(Update)
    requires FindIndex(w.store.notes, c.note.id).Some?
    requires w.store.notes[FindIndex(w.store.notes, c.note.id).value].syncStatus == Synced
    ensures var i := FindIndex(w.store.notes, c.note.id).value;
            var r := ChangeApplied(w, strategy, c);
            && r.notices == w.notices
            && |r.store.notes| == |w.store.notes|
            && r.store.notes[i].title == c.note.title && r.store.notes[i].content == c.note.content
            && r.store.notes[i].syncStatus == Pending && r.store.notes[i].version == w.store.notes[i].version + 1
  {
    var i := FindIndex(w.store.notes, c.note.id).value;
    var p := PatchOf(c.note, Synced);
    var u := Updated(w.store, c.note.id, p);
    assert u.Ok?;
    assert SameContent(u.value.1, ApplyPatch(w.store.notes[i], p));
  }

  /** The pull loop's body as a step function. */
  function ChangeStep(strategy: Strategy): (World, Change) -> World
  {
    (v: World, c: Change) => ChangeApplied(v, strategy, c)
  }

  /** Applying the changes of a pull, in server order, sends nothing and leaves the queue and
      the last sync time alone. */
  lemma ChangesAreQuiet(w: World, strategy: Strategy, changes: seq<Change>)
    ensures Quiet(w, FoldLeft(w, ChangeStep(strategy), changes))
  {
    forall v: World, c: Change
      ensures Quiet(v, ChangeStep(strategy)(v, c))
    {
    }
    QuietSteps(w, ChangeStep(strategy), changes);
  }

  /** A reply that makes the pull apply changes: successful, with at least one change. */
  predicate Applies(reply: Reply)
  {
    reply.Replied? && reply.success && |reply.changes| > 0
  }

  /** `pullRemoteChanges` (syncService.js:94-113). */
  function Pulled(w: World, strategy: Strategy, online: bool): (r: World)
    ensures |r.sent| == |w.sent| + 1 && r.sent[..|w.sent|] == w.sent
    ensures r.sent[|w.sent|].verb == Get && r.sent[|w.sent|].endpoint.NotesChanges?
    ensures r.sent[|w.sent|].endpoint.since == LastSyncTime(w.store)
    ensures r.script == Drop(w.script, 1)
    ensures Applies(NextReply(w.script)) ==> SettingOf(r.store, LastSyncKey) == Some(Time(r.store.clock - 1))
    ensures !Applies(NextReply(w.script)) ==>
      SettingOf(r.store, LastSyncKey) == SettingOf(w.store, LastSyncKey) && r.store.notes == w.store.notes
  {
    var since := LastSyncTime(w.store);
    var (s1, device) := WithDeviceId(w.store);
    var (w1, reply) := Call(w.(store := s1), online, Request(Get, NotesChanges(since, device), NoBody));
    if Applies(reply) then
      var w2 := FoldLeft(w1, ChangeStep(strategy), reply.changes);
      ChangesAreQuiet(w1, strategy, reply.changes);
      var (s3, t) := Tick(w2.store);
      w2.(store := WithSetting(s3, LastSyncKey, Time(t)))
    else w1
  }

  /** One sync pass (syncService.js:45-50): push, then pull. */
  function Sync(w: World, strategy: Strategy, online: bool): World
  {
    Pulled(Pushed(w, strategy, online), strategy, online)
  }

  /** A sync pass sends exactly one request per pending note and one request for changes. */
  lemma SyncRequestCount(w: World, strategy: Strategy, online: bool)
    ensures |Sync(w, strategy, online).sent| == |w.sent| + |PendingSyncItems(w.store.notes)| + 1
  {
    PushSendsOnePerItem(w, strategy, online, PendingSyncItems(w.store.notes));
  }

  // ------------------------------------------------------------ offline queue

  /** The replay loop's body as a step function: the reply is ignored. */
  function ReplayStep(online: bool): (World, QueuedRequest) -> World
  {
    (v: World, q: QueuedRequest) => Call(v, online, q.request).0
  }

  predicate IsReplayOf(req: Request, q: QueuedRequest)
  {
    req == q.request
  }

  lemma ReplayInOrder(w: World, online: bool, q: seq<QueuedRequest>)
    ensures SentInOrder(w.sent, FoldLeft(w, ReplayStep(online), q).sent, q, IsReplayOf)
    ensures FoldLeft(w, ReplayStep(online), q).store.notes == w.store.notes
  {
    forall v: World, x: QueuedRequest
      ensures OneRequest(v, ReplayStep(online)(v, x), x, IsReplayOf)
      ensures ReplayStep(online)(v, x).store.notes == v.store.notes
      ensures ReplayStep(online)(v, x).notices == v.notices
    {
    }
    StepsSendInOrder(w, ReplayStep(online), q, IsReplayOf);
    StepsKeepNotes(w, ReplayStep(online), q);
  }

  /** `processQueuedRequests` (syncService.js:284-303): every queued request is attempted once,
      in queue order, and the queue is then emptied, whether the attempts failed or not. */
  function ProcessQueue(w: World, online: bool): (r: World)
    ensures SentInOrder(w.sent, r.sent, QueueOf(w.store), IsReplayOf)
    ensures QueueOf(r.store) == []
    ensures r.store.notes == w.store.notes
  {
    var q := QueueOf(w.store);
    if |q| == 0 then w
    else
      var w1 := FoldLeft(w, ReplayStep(online), q);
      ReplayInOrder(w, online, q);
      w1.(store := WithSetting(w1.store, QueueKey, Queue([])))
  }

  // ----------------------------------------------------------------- objects

  /** The network as an oracle: a fixed script of replies, and the log of requests sent. */
  class Transport {
    var script: seq<Reply>
    var sent: seq<Request>

    constructor (script: seq<Reply>)
      ensures this.script == script && sent == []
    {
      this.script := script;
      sent := [];
    }

    method Send(req: Request) returns (reply: Reply)
      modifies this
      ensures sent == old(sent) + [req] && script == Drop(old(script), 1)
      ensures reply == NextReply(old(script))
    {
      reply := NextReply(script);
      script := Drop(script, 1);
      sent := sent + [req];
    }
  }

  /** The `SyncService` singleton. */
  class SyncService {
    const db: Database
    const transport: Transport
    const strategy: Strategy
    var isOnline: bool
    var syncInProgress: bool
    var notices: seq<ConflictRecord>

    function State(): World
      reads this, db, transport
    {
      World(db.State(), transport.script, transport.sent, notices)
    }

    /** `online` stands for `navigator.onLine` at start-up; the source fixes the strategy
        at `latest_wins`, the model takes any of the three. */
    constructor (db: Database, transport: Transport, online: bool, strategy: Strategy)
      ensures this.db == db && this.transport == transport && this.strategy == strategy
      ensures isOnline == online && !syncInProgress && notices == []
    {
      this.db := db;
      this.transport := transport;
      this.strategy := strategy;
      isOnline := online;
      syncInProgress := false;
      notices := [];
    }

    method QueueOfflineRequest(req: Request)
      modifies db
      ensures State() == Queued(old(State()), req)
    {
      var q := QueueOf(db.State());
      var t := db.Now();
      db.SetSetting(QueueKey, Queue(q + [QueuedRequest(req, t)]));
    }

    method MakeApiRequest(req: Request) returns (reply: Reply)
      modifies db, transport
      ensures (State(), reply) == Call(old(State()), isOnline, req)
    {
      reply := transport.Send(req);
      if reply.Failed? && !isOnline {
        QueueOfflineRequest(req);
      }
    }

    method StoreConflictForManualResolution(local: Note, remote: Option<Note>)
      modifies this`notices, db
      ensures State() == RecordConflict(old(State()), local, remote)
    {
      var t := db.Now();
      var record := ConflictRecord(local.id, local, remote, t, false);
      db.SetSetting(ConflictKey(local.id), Conflict(record));
      notices := notices + [record];
    }

    method HandleConflict(local: Note, remote: Option<Note>)
      modifies this`notices, db
      ensures State() == ResolveConflict(old(State()), strategy, local, remote)
    {
      match strategy
      case LatestWins =>
        if remote.Some? && remote.value.updatedAt > local.updatedAt {
          var _ := db.UpdateNote(local.id, PatchOf(remote.value, Synced));
        }
      case Manual =>
        StoreConflictForManualResolution(local, remote);
      case Merge =>
        if remote.Some? {
          var merged := MergeNotes(local, remote.value);
          var _ := db.UpdateNote(local.id, PatchOf(merged, Synced));
        }
    }

    /** One iteration of the push loop: a failure of the request is caught there and
        leaves the note pending. */
    method PushItem(item: Note)
      modifies this`notices, db, transport
      ensures State() == PushStep(strategy, isOnline)(old(State()), item)
    {
      var device := db.GetDeviceId();
      var t := db.Now();
      var reply := MakeApiRequest(Request(Post, NotesSync, SyncBody(item, device, t)));
      if reply.Replied? && reply.success {
        db.MarkAsSynced(item.id);
      } else if reply.Replied? && reply.conflict {
        HandleConflict(item, reply.remoteNote);
      }
    }

    /** One turn of the push loop: the prefix `items[..i]` is pushed, now `items[i]` too. */
    method PushNext(items: seq<Note>, i: nat, ghost w0: World)
      requires i < |items|
      requires State() == FoldLeft(w0, PushStep(strategy, isOnline), items[..i])
      modifies this`notices, db, transport
      ensures State() == FoldLeft(w0, PushStep(strategy, isOnline), items[..i + 1])
    {
      FoldLeftStep(w0, PushStep(strategy, isOnline), items, i);
      PushItem(items[i]);
    }

    /** The push loop (syncService.js:70-91) over a given list. */
    method PushAll(items: seq<Note>)
      modifies this`notices, db, transport
      ensures State() == FoldLeft(old(State()), PushStep(strategy, isOnline), items)
    {
      ghost var w0 := State();
      var i := 0;
      while i < |items|
        invariant 0 <= i <= |items|
        invariant State() == FoldLeft(w0, PushStep(strategy, isOnline), items[..i])
      {
        PushNext(items, i, w0);
        i := i + 1;
      }
      assert items[..|items|] == items;
    }

    method PushLocalChanges()
      modifies this`notices, db, transport
      ensures State() == Pushed(old(State()), strategy, isOnline)
    {
      var items := db.GetPendingSyncItems();
      if |items| == 0 {
        return;
      }
      PushAll(items);
    }

    method ApplyRemoteChange(change: Change)
      modifies this`notices, db
      ensures State() == ChangeApplied(old(State()), strategy, change)
    {
      var found := db.GetNoteById(change.note.id);
      var local := if found.Some? then Some(found.value.note) else None;
      match Dispatch(local, change)
      case CreateLocal =>
        var _ := db.CreateNote(DraftOf(change.note));
      case UpdateLocal =>
        var _ := db.UpdateNote(change.note.id, PatchOf(change.note, Synced));
      case ResolveWith(note) =>
        HandleConflict(note, Some(change.note));
      case DeleteLocal =>
        var _ := db.DeleteNote(change.note.id);
      case Ignore =>
    }

    method PullRemoteChanges()
      modifies this`notices, db, transport
      ensures State() == Pulled(old(State()), strategy, isOnline)
    {
      var since := LastSyncTime(db.State());
      var device := db.GetDeviceId();
      var reply := MakeApiRequest(Request(Get, NotesChanges(since, device), NoBody));
      if Applies(reply) {
        var changes := reply.changes;
        ghost var w1 := State();
        var i := 0;
        while i < |changes|
          invariant 0 <= i <= |changes|
          invariant State() == FoldLeft(w1, ChangeStep(strategy), changes[..i])
        {
          FoldLeftStep(w1, ChangeStep(strategy), changes, i);
          ApplyRemoteChange(changes[i]);
          i := i + 1;
        }
        assert changes[..|changes|] == changes;
        var t := db.Now();
        db.SetSetting(LastSyncKey, Time(t));
      }
    }

    /** `performSync` (syncService.js:36-58): single-flight. A pass already in progress makes
        a new trigger return at once, with no request sent and nothing changed; otherwise one
        push-then-pull pass runs and the flag is cleared again at the end. */
    method PerformSync()
      modifies this`syncInProgress, this`notices, db, transport
      ensures old(syncInProgress) ==> State() == old(State()) && syncInProgress
      ensures !old(syncInProgress) ==> State() == Sync(old(State()), strategy, isOnline) && !syncInProgress
    {
      if syncInProgress {
        return;
      }
      syncInProgress := true;
      PushLocalChanges();
      PullRemoteChanges();
      syncInProgress := false;
    }

    /** The replay loop (syncService.js:289-297) over a given queue: one request per entry,
        in order, a failure caught and the next entry tried. */
    method ReplayAll(queue: seq<QueuedRequest>)
      modifies db, transport
      ensures State() == FoldLeft(old(State()), ReplayStep(isOnline), queue)
    {
      ghost var w0 := State();
      var i := 0;
      while i < |queue|
        invariant 0 <= i <= |queue|
        invariant State() == FoldLeft(w0, ReplayStep(isOnline), queue[..i])
      {
        ReplayNext(queue, i, w0);
        i := i + 1;
      }
      assert queue[..|queue|] == queue;
    }

    /** One turn of the replay loop: `queue[..i]` is replayed, now `queue[i]` too. */
    method ReplayNext(queue: seq<QueuedRequest>, i: nat, ghost w0: World)
      requires i < |queue|
      requires State() == FoldLeft(w0, ReplayStep(isOnline), queue[..i])
      modifies db, transport
      ensures State() == FoldLeft(w0, ReplayStep(isOnline), queue[..i + 1])
    {
      FoldLeftStep(w0, ReplayStep(isOnline), queue, i);
      var _ := MakeApiRequest(queue[i].request);
    }

    method ProcessQueuedRequests()
      modifies db, transport
      ensures State() == ProcessQueue(old(State()), isOnline)
    {
      var queue := QueueOf(db.State());
      if |queue| == 0 {
        return;
      }
      ReplayAll(queue);
      db.SetSetting(QueueKey, Queue([]));
    }

    /** `syncWhenOnline` (syncService.js:310-317), with the queue replay run to completion
        before the pass starts. */
    method SyncWhenOnline()
      modifies this`syncInProgress, this`notices, db, transport
      ensures isOnline && !old(syncInProgress) ==> State() == Sync(ProcessQueue(old(State()), true), strategy, true)
      ensures !(isOnline && !old(syncInProgress)) ==> State() == old(State())
      ensures syncInProgress == old(syncInProgress)
    {
      if isOnline && !syncInProgress {
        ProcessQueuedRequests();
        PerformSync();
      }
    }

    /** `initialize` (syncService.js:22-34): one pass at start-up when online; the periodic
        timer it installs is `TimerTick`. */
    method Initialize()
      modifies this`syncInProgress, this`notices, db, transport
      ensures isOnline && !old(syncInProgress) ==> State() == Sync(old(State()), strategy, true)
      ensures !isOnline ==> State() == old(State())
      ensures isOnline && old(syncInProgress) ==> State() == old(State())
      ensures syncInProgress == old(syncInProgress)
    {
      if isOnline {
        PerformSync();
      }
    }

    /** The window's `online` event (syncService.js:12-15): replay the queue, then sync. */
    method GoOnline()
      modifies this`isOnline, this`syncInProgress, this`notices, db, transport
      ensures isOnline
      ensures !old(syncInProgress) ==> State() == Sync(ProcessQueue(old(State()), true), strategy, true)
      ensures old(syncInProgress) ==> State() == old(State())
    {
      isOnline := true;
      SyncWhenOnline();
    }

    /** The window's `offline` event (syncService.js:17-19). */
    method GoOffline()
      modifies this`isOnline
      ensures !isOnline
    {
      isOnline := false;
    }

    /** One tick of the five-minute timer set up by `initialize` (syncService.js:24-28). */
    method TimerTick()
      modifies this`syncInProgress, this`notices, db, transport
      ensures isOnline && !old(syncInProgress) ==> State() == Sync(old(State()), strategy, true)
      ensures !(isOnline && !old(syncInProgress)) ==> State() == old(State())
      ensures syncInProgress == old(syncInProgress)
    {
      if isOnline && !syncInProgress {
        PerformSync();
      }
    }

    /** `forcSync` (syncService.js:320-326): refuses while offline; otherwise it runs
        `performSync`, whose promise carries no value. */
    method ForcSync() returns (r: Result<(), SyncError>)
      modifies this`syncInProgress, this`notices, db, transport
      ensures !isOnline ==> r == Err(CannotSyncWhileOffline) && State() == old(State())
      ensures isOnline ==> r == Ok(())
      ensures isOnline && !old(syncInProgress) ==> State() == Sync(old(State()), strategy, true)
      ensures isOnline && old(syncInProgress) ==> State() == old(State())
      ensures syncInProgress == old(syncInProgress)
    {
      if !isOnline {
        return Err(CannotSyncWhileOffline);
      }
      PerformSync();
      r := Ok(());
    }

    /** `getSyncStatus` (syncService.js:329-337). */
    function GetSyncStatus(): (s: Status)
      reads this, db
      ensures s.isOnline == isOnline && s.syncInProgress == syncInProgress
      ensures s.pendingItems == |PendingSyncItems(db.notes)| <= |db.notes|
      ensures s.queuedRequests == |QueueOf(db.State())|
      ensures s.pendingItems == 0 <==> forall n :: n in db.notes ==> n.syncStatus != Pending
      ensures s.lastSync == db.GetSetting(LastSyncKey)
    {
      var pending := PendingSyncItems(db.notes);
      assert pending == [] <==> forall n :: n in db.notes ==> n.syncStatus != Pending by {
        if pending != [] { assert pending[0] in pending; }
      }
      Status(isOnline, syncInProgress, |pending|, |QueueOf(db.State())|, db.GetSetting(LastSyncKey))
    }
  }
}
