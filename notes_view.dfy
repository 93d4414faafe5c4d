/** The note list of the `NotesApp` screen (src/components/NotesApp.jsx).

    The component keeps its notes in React state and replaces the whole value
    on every change, so each operation is a function from the old view to the
    new one. A reading of the clock is a parameter (`now`). */
module NotesView {
  import opened Util

  /** A note as the screen holds it (NotesApp.jsx:38-47, 112-121). */
  datatype Card = Card(id: int, title: string, content: string, category: string,
                       createdAt: int, updatedAt: int, isFavorite: bool, tags: seq<string>)

  /** The `updates` object of `updateNote`: a key that is absent is `None`. */
  datatype CardPatch = CardPatch(id: Option<int>, title: Option<string>, content: Option<string>,
                                 category: Option<string>, createdAt: Option<int>,
                                 isFavorite: Option<bool>, tags: Option<seq<string>>)

  /** The parts of the component's state the list operations touch. */
  datatype View = View(notes: seq<Card>, selected: Option<Card>, editing: Option<Card>,
                       newTag: string, showTagInput: bool, showCreateModal: bool)

  // ----------------------------------------------------------------- search

  /** The search test: the lower-cased title or content contains the lower-cased query. */
  predicate Matches(n: Card, query: string)
  {
    Contains(Lower(n.title), Lower(query)) || Contains(Lower(n.content), Lower(query))
  }

  function MatchesQuery(query: string): Card -> bool
  {
    (n: Card) => Matches(n, query)
  }

  /** `filteredNotes` (NotesApp.jsx:106-109). */
  function FilteredNotes(notes: seq<Card>, query: string): (r: seq<Card>)
    ensures forall n :: n in r <==> n in notes && Matches(n, query)
    ensures |r| <= |notes|
  {
    Filter(notes, MatchesQuery(query))
  }

  /** The search keeps the list's order: searching a concatenation is concatenating the searches. */
  lemma SearchKeepsOrder(a: seq<Card>, b: seq<Card>, query: string)
    ensures FilteredNotes(a + b, query) == FilteredNotes(a, query) + FilteredNotes(b, query)
  {
    FilterAppend(a, b, MatchesQuery(query));
  }

  /** An empty query shows every note, in order. */
  lemma EmptyQueryShowsAll(notes: seq<Card>)
    ensures FilteredNotes(notes, "") == notes
  {
    forall k | 0 <= k < |notes|
      ensures MatchesQuery("")(notes[k])
    {
      ContainsEmpty(Lower(notes[k].title));
    }
    FilterKeepsAll(notes, MatchesQuery(""));
  }

  lemma {:induction false} LowerTwice(s: string)
    ensures Lower(Lower(s)) == Lower(s)
  {
    forall i | 0 <= i < |s|
      ensures Lower(Lower(s))[i] == Lower(s)[i]
    {
      var c := s[i];
      if 'A' <= c <= 'Z' {
        assert Lower(s)[i] as int == c as int + 32;
      }
    }
  }

  /** The search ignores the case of the query's ASCII letters. */
  lemma SearchIgnoresQueryCase(notes: seq<Card>, query: string)
    ensures FilteredNotes(notes, Lower(query)) == FilteredNotes(notes, query)
  {
    LowerTwice(query);
    FilterAgrees(notes, MatchesQuery(Lower(query)), MatchesQuery(query));
  }

  // ----------------------------------------------------------------- create

  /** The note `createNewNote` makes at time `now` (NotesApp.jsx:112-121). */
  function NewCard(now: int): (n: Card)
    ensures n.id == now && n.title == "Untitled Note" && n.content == "" && n.category == "ideas"
    ensures !n.isFavorite && n.tags == [] && n.createdAt == now && n.updatedAt == now
  {
    Card(now, "Untitled Note", "", "ideas", now, now, false, [])
  }

  /** `createNewNote` (NotesApp.jsx:111-125): the new note first, then the old ones; it is opened for editing. */
  function CreateNewNote(v: View, now: int): (r: View)
    ensures |r.notes| == |v.notes| + 1 && r.notes[0] == NewCard(now) && r.notes[1..] == v.notes
    ensures r.editing == Some(NewCard(now)) && !r.showCreateModal
    ensures r.selected == v.selected && r.newTag == v.newTag && r.showTagInput == v.showTagInput
  {
    v.(notes := [NewCard(now)] + v.notes, editing := Some(NewCard(now)), showCreateModal := false)
  }

  // ----------------------------------------------------------------- update

  /** `{ ...note, ...updates, updatedAt: now }`. */
  function Patched(n: Card, p: CardPatch, now: int): (r: Card)
    ensures r.id == Override(p.id, n.id) && r.title == Override(p.title, n.title)
    ensures r.content == Override(p.content, n.content) && r.category == Override(p.category, n.category)
    ensures r.createdAt == Override(p.createdAt, n.createdAt) && r.isFavorite == Override(p.isFavorite, n.isFavorite)
    ensures r.tags == Override(p.tags, n.tags) && r.updatedAt == now
  {
    Card(Override(p.id, n.id), Override(p.title, n.title), Override(p.content, n.content),
         Override(p.category, n.category), Override(p.createdAt, n.createdAt), now,
         Override(p.isFavorite, n.isFavorite), Override(p.tags, n.tags))
  }

  /** `updateNote(id, updates)` (NotesApp.jsx:127-133): each note with that id patched, the others untouched. */
  function UpdateNote(notes: seq<Card>, id: int, p: CardPatch, now: int): (r: seq<Card>)
    ensures |r| == |notes|
    ensures forall i :: 0 <= i < |notes| && notes[i].id == id ==> r[i] == Patched(notes[i], p, now)
    ensures forall i :: 0 <= i < |notes| && notes[i].id != id ==> r[i] == notes[i]
  {
    seq(|notes|, i requires 0 <= i < |notes| => if notes[i].id == id then Patched(notes[i], p, now) else notes[i])
  }

  /** The patch that applies `p`, then `q`. */
  function Then(p: CardPatch, q: CardPatch): CardPatch
  {
    CardPatch(if q.id.Some? then q.id else p.id, if q.title.Some? then q.title else p.title,
              if q.content.Some? then q.content else p.content, if q.category.Some? then q.category else p.category,
              if q.createdAt.Some? then q.createdAt else p.createdAt,
              if q.isFavorite.Some? then q.isFavorite else p.isFavorite, if q.tags.Some? then q.tags else p.tags)
  }

  /** Two updates of one note in a row are one update with the merged patch, stamped with the later time. */
  lemma UpdatesCompose(notes: seq<Card>, id: int, p: CardPatch, q: CardPatch, t1: int, t2: int)
    requires p.id.None? || p.id.value == id
    ensures UpdateNote(UpdateNote(notes, id, p, t1), id, q, t2) == UpdateNote(notes, id, Then(p, q), t2)
  {
    var once := UpdateNote(notes, id, p, t1);
    var l, r := UpdateNote(once, id, q, t2), UpdateNote(notes, id, Then(p, q), t2);
    forall i | 0 <= i < |notes|
      ensures l[i] == r[i]
    {
      if notes[i].id == id {
        assert once[i].id == id;
      }
    }
  }

  /** An update of an id no note has changes nothing. */
  lemma UpdateAbsentIsIdentity(notes: seq<Card>, id: int, p: CardPatch, now: int)
    requires forall i :: 0 <= i < |notes| ==> notes[i].id != id
    ensures UpdateNote(notes, id, p, now) == notes
  {
  }

  // ----------------------------------------------------------------- delete

  function OtherId(id: int): Card -> bool
  {
    (n: Card) => n.id != id
  }

  /** `deleteNote(id)` (NotesApp.jsx:135-143): every note with that id goes, and the selected and
      edited notes are closed when they have it. */
  function DeleteNote(v: View, id: int): (r: View)
    ensures forall n :: n in r.notes <==> n in v.notes && n.id != id
    ensures r.notes == Filter(v.notes, OtherId(id))
    ensures v.selected.Some? && v.selected.value.id == id ==> r.selected.None?
    ensures !(v.selected.Some? && v.selected.value.id == id) ==> r.selected == v.selected
    ensures v.editing.Some? && v.editing.value.id == id ==> r.editing.None?
    ensures !(v.editing.Some? && v.editing.value.id == id) ==> r.editing == v.editing
  {
    var notes := Filter(v.notes, OtherId(id));
    var selected := if v.selected.Some? && v.selected.value.id == id then None else v.selected;
    var editing := if v.editing.Some? && v.editing.value.id == id then None else v.editing;
    v.(notes := notes, selected := selected, editing := editing)
  }

  /** Deleting twice is deleting once. */
  lemma DeleteIdempotent(v: View, id: int)
    ensures DeleteNote(DeleteNote(v, id), id) == DeleteNote(v, id)
  {
    var once := DeleteNote(v, id).notes;
    forall k | 0 <= k < |once|
      ensures OtherId(id)(once[k])
    {
      assert once[k] in once;
    }
    FilterKeepsAll(once, OtherId(id));
  }

  /** Deleting the note just created, when no other note had its id, gives back the old list. */
  lemma DeleteUndoesCreate(v: View, now: int)
    requires forall k :: 0 <= k < |v.notes| ==> v.notes[k].id != now
    ensures DeleteNote(CreateNewNote(v, now), now).notes == v.notes
  {
    FilterAppend([NewCard(now)], v.notes, OtherId(now));
    assert Filter([NewCard(now)], OtherId(now)) == [] by {
      assert [NewCard(now)][1..] == [];
    }
    FilterKeepsAll(v.notes, OtherId(now));
  }

  // --------------------------------------------------------------- favourite

  /** `notes.find(n => n.id === id)`: the first note with that id. */
  function Find(notes: seq<Card>, id: int): (r: Option<nat>)
    ensures r.None? <==> forall k :: 0 <= k < |notes| ==> notes[k].id != id
    ensures r.Some? ==> r.value < |notes| && notes[r.value].id == id
    ensures r.Some? ==> forall k :: 0 <= k < r.value ==> notes[k].id != id
  {
    if notes == [] then None
    else if notes[0].id == id then Some(0)
    else
      var rest := Find(notes[1..], id);
      if rest.Some? then Some(rest.value + 1) else None
  }

  /** `toggleFavorite(id)` (NotesApp.jsx:145-147): every note with that id takes the negation of
      the first one's flag. `None` when no note has the id: the source then throws reading
      `isFavorite` of `undefined`. */
  function ToggleFavorite(notes: seq<Card>, id: int, now: int): (r: Option<seq<Card>>)
    ensures r.None? <==> forall k :: 0 <= k < |notes| ==> notes[k].id != id
    ensures r.Some? ==> |r.value| == |notes|
    ensures r.Some? ==> forall i :: 0 <= i < |notes| && notes[i].id != id ==> r.value[i] == notes[i]
    ensures r.Some? ==> forall i :: 0 <= i < |notes| && notes[i].id == id ==>
      r.value[i] == notes[i].(isFavorite := !notes[Find(notes, id).value].isFavorite, updatedAt := now)
  {
    var first := Find(notes, id);
    if first.None? then None
    else
      var flag := !notes[first.value].isFavorite;
      Some(UpdateNote(notes, id, CardPatch(None, None, None, None, None, Some(flag), None), now))
  }

  /** Toggling twice gives the note back its flag; only its time stamp moves. */
  lemma ToggleTwice(notes: seq<Card>, id: int, t1: int, t2: int)
    requires ToggleFavorite(notes, id, t1).Some?
    ensures var once := ToggleFavorite(notes, id, t1).value;
      var i := Find(notes, id).value;
      ToggleFavorite(once, id, t2).Some?
      && ToggleFavorite(once, id, t2).value[i] == notes[i].(updatedAt := t2)
  {
    var once := ToggleFavorite(notes, id, t1).value;
    var i := Find(notes, id).value;
    assert Find(once, id) == Some(i) by {
      assert forall k :: 0 <= k < i ==> once[k].id != id;
      FindFirst(once, id, i);
    }
  }

  lemma {:induction false} FindFirst(notes: seq<Card>, id: int, i: nat)
    requires i < |notes| && notes[i].id == id
    requires forall k :: 0 <= k < i ==> notes[k].id != id
    ensures Find(notes, id) == Some(i)
  {
    if i > 0 {
      assert notes[0].id != id;
      FindFirst(notes[1..], id, i - 1);
    }
  }

  // -------------------------------------------------------------------- tags

  /** `addTag` (NotesApp.jsx:170-180): a tag that is blank after trimming is ignored; otherwise the
      trimmed, lower-cased tag goes at the end of the edited note's tags. */
  function AddTag(v: View): (r: View)
    ensures Trim(v.newTag) == "" || v.editing.None? ==> r == v
    ensures Trim(v.newTag) != "" && v.editing.Some? ==>
      r.editing.Some? && r.editing.value == v.editing.value.(tags := v.editing.value.tags + [Lower(Trim(v.newTag))])
      && r.newTag == "" && !r.showTagInput && r.notes == v.notes
      && r.selected == v.selected && r.showCreateModal == v.showCreateModal
  {
    if Trim(v.newTag) != "" && v.editing.Some? then
      var n := v.editing.value;
      v.(editing := Some(n.(tags := n.tags + [Lower(Trim(v.newTag))])), newTag := "", showTagInput := false)
    else v
  }

  function OtherTag(tag: string): string -> bool
  {
    (t: string) => t != tag
  }

  /** `removeTag(tag)` (NotesApp.jsx:182-190): every copy of the tag leaves the edited note's tags. */
  function RemoveTag(v: View, tag: string): (r: View)
    ensures v.editing.None? ==> r == v
    ensures v.editing.Some? ==> r.editing.Some? && r.editing.value == v.editing.value.(tags := r.editing.value.tags)
    ensures v.editing.Some? ==> forall t :: t in r.editing.value.tags <==> t in v.editing.value.tags && t != tag
    ensures v.editing.Some? ==> r.editing.value.tags == Filter(v.editing.value.tags, OtherTag(tag))
    ensures r.notes == v.notes && r.newTag == v.newTag && r.selected == v.selected
    ensures r.showTagInput == v.showTagInput && r.showCreateModal == v.showCreateModal
  {
    if v.editing.Some? then
      var n := v.editing.value;
      v.(editing := Some(n.(tags := Filter(n.tags, OtherTag(tag)))))
    else v
  }

  /** Removing the tag just added, when the note did not carry it before, restores the tag list. */
  lemma RemoveUndoesAdd(v: View)
    requires v.editing.Some? && Trim(v.newTag) != ""
    requires Lower(Trim(v.newTag)) !in v.editing.value.tags
    ensures RemoveTag(AddTag(v), Lower(Trim(v.newTag))).editing == v.editing
  {
    var tag := Lower(Trim(v.newTag));
    var added := AddTag(v);
    assert added.editing.value.tags == v.editing.value.tags + [tag];
    DropAppended(v.editing.value.tags, tag);
  }

  lemma DropAppended(tags: seq<string>, tag: string)
    requires tag !in tags
    ensures Filter(tags + [tag], OtherTag(tag)) == tags
  {
    FilterAppend(tags, [tag], OtherTag(tag));
    assert Filter([tag], OtherTag(tag)) == [] by {
      assert [tag][1..] == [];
    }
    forall k | 0 <= k < |tags|
      ensures OtherTag(tag)(tags[k])
    {
      assert tags[k] in tags;
    }
    FilterKeepsAll(tags, OtherTag(tag));
  }
}
