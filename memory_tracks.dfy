/** The memory journal (src/components/MemoryTracks.tsx): a list of memories,
    each tied to a song, with a form that adds a memory at the front of the
    list and a delete button that removes memories by id. */
module MemoryTracks {

  /** One journal entry. `id` is a number in the source (`Date.now()` for new
      entries), so it is an unbounded integer here. */
  datatype Memory = Memory(id: int, title: string, song: string, artist: string,
                           date: string, note: string, emotion: string, hasPhoto: bool)

  /** The add-memory form's fields. */
  datatype MemoryForm = MemoryForm(title: string, song: string, artist: string,
                                   note: string, emotion: string)

  /** The field an input of the form edits. */
  datatype FormField = Title | Song | Artist | Note | Emotion

  /** The form as first shown and after every successful add. */
  function EmptyForm(): (f: MemoryForm)
    ensures f.title == "" && f.song == "" && f.artist == "" && f.note == ""
    ensures f.emotion == "joy"
  {
    MemoryForm("", "", "", "", "joy")
  }

  /** The three memories the journal starts with. */
  function InitialMemories(): seq<Memory>
  {
    [ Memory(1, "First Dance", "Perfect", "Ed Sheeran", "2023-06-15",
             "Our wedding day. This song played during our first dance and I'll never forget how magical that moment felt.",
             "love", true),
      Memory(2, "Road Trip Adventure", "Life is a Highway", "Tom Cochrane", "2023-07-22",
             "Driving through the mountains with my best friends. Windows down, music loud, feeling infinite.",
             "joy", true),
      Memory(3, "Graduation Day", "Good as Hell", "Lizzo", "2023-05-20",
             "Walking across that stage with this song in my head. Four years of hard work finally paid off!",
             "pride", false) ]
  }

  /** No two memories of the list share an id. */
  predicate DistinctIds(ms: seq<Memory>)
  {
    forall i, j :: 0 <= i < j < |ms| ==> ms[i].id != ms[j].id
  }

  /** The journal starts with three memories with ids 1, 2 and 3. */
  lemma InitialMemoriesShape()
    ensures |InitialMemories()| == 3
    ensures forall k :: 0 <= k < 3 ==> InitialMemories()[k].id == k + 1
    ensures DistinctIds(InitialMemories())
  {
  }

  /** The add button's guard: title, song and artist are all non-empty (the
      note may be empty). */
  predicate FormComplete(f: MemoryForm)
  {
    f.title != "" && f.song != "" && f.artist != ""
  }

  /** The memory built from the form; the id, the date and the photo flag come
      from the clock and the random source, so they are parameters. */
  function FromForm(f: MemoryForm, id: int, date: string, hasPhoto: bool): (m: Memory)
    ensures m.id == id && m.date == date && m.hasPhoto == hasPhoto
    ensures m.title == f.title && m.song == f.song && m.artist == f.artist
    ensures m.note == f.note && m.emotion == f.emotion
  {
    Memory(id, f.title, f.song, f.artist, date, f.note, f.emotion, hasPhoto)
  }

  /** `{ ...prev, [field]: value }`: one input's change handler. */
  function WithField(f: MemoryForm, field: FormField, value: string): (r: MemoryForm)
    ensures field == Title ==> r == f.(title := value)
    ensures field == Song ==> r == f.(song := value)
    ensures field == Artist ==> r == f.(artist := value)
    ensures field == Note ==> r == f.(note := value)
    ensures field == Emotion ==> r == f.(emotion := value)
  {
    match field
    case Title => f.(title := value)
    case Song => f.(song := value)
    case Artist => f.(artist := value)
    case Note => f.(note := value)
    case Emotion => f.(emotion := value)
  }

  /** The value a field of the form holds. */
  function FieldValue(f: MemoryForm, field: FormField): string
  {
    match field
    case Title => f.title
    case Song => f.song
    case Artist => f.artist
    case Note => f.note
    case Emotion => f.emotion
  }

  /** An edit sets its own field and leaves the other four as they were. */
  lemma WithFieldSetsOnlyThatField(f: MemoryForm, field: FormField, value: string, other: FormField)
    ensures FieldValue(WithField(f, field, value), field) == value
    ensures other != field ==> FieldValue(WithField(f, field, value), other) == FieldValue(f, other)
  {
  }

  /** `prev.filter(memory => memory.id !== id)`. */
  function RemoveId(ms: seq<Memory>, id: int): (r: seq<Memory>)
    ensures |r| <= |ms|
    ensures forall m :: m in r <==> m in ms && m.id != id
    ensures forall m :: multiset(r)[m] == if m.id == id then 0 else multiset(ms)[m]
  {
    if ms == [] then []
    else
      var rest := RemoveId(ms[1..], id);
      assert ms == [ms[0]] + ms[1..];
      if ms[0].id == id then rest else [ms[0]] + rest
  }

  /** Filtering distributes over concatenation, so the kept memories stay in
      their old order. */
  lemma {:induction false} RemoveIdAppend(a: seq<Memory>, b: seq<Memory>, id: int)
    ensures RemoveId(a + b, id) == RemoveId(a, id) + RemoveId(b, id)
  {
    if a == [] {
      assert a + b == b;
    } else {
      assert (a + b)[1..] == a[1..] + b;
      RemoveIdAppend(a[1..], b, id);
    }
  }

  /** Deleting an id no memory has changes nothing. */
  lemma {:induction false} RemoveAbsentId(ms: seq<Memory>, id: int)
    requires forall k :: 0 <= k < |ms| ==> ms[k].id != id
    ensures RemoveId(ms, id) == ms
  {
    if ms != [] {
      RemoveAbsentId(ms[1..], id);
    }
  }

  /** Deleting the same id twice is deleting it once. */
  lemma RemoveIdIdempotent(ms: seq<Memory>, id: int)
    ensures RemoveId(RemoveId(ms, id), id) == RemoveId(ms, id)
  {
    var r := RemoveId(ms, id);
    forall k | 0 <= k < |r|
      ensures r[k].id != id
    {
      assert r[k] in r;
    }
    RemoveAbsentId(r, id);
  }

  /** Deleting a memory just added with a fresh id gives back the list it was
      added to. */
  lemma DeleteUndoesAdd(ms: seq<Memory>, m: Memory)
    requires forall k :: 0 <= k < |ms| ==> ms[k].id != m.id
    ensures RemoveId([m] + ms, m.id) == ms
  {
    assert ([m] + ms)[1..] == ms;
    RemoveAbsentId(ms, m.id);
  }

  /** The journal screen's state. */
  class MemoryJournal {
    var memories: seq<Memory>
    var form: MemoryForm
    var showAddModal: bool

    constructor ()
      ensures memories == InitialMemories() && form == EmptyForm() && !showAddModal
    {
      memories := InitialMemories();
      form := EmptyForm();
      showAddModal := false;
    }

    /** The "Add New Memory" button opens the form as it was left. */
    method OpenAddModal()
      modifies this
      ensures showAddModal && memories == old(memories) && form == old(form)
    {
      showAddModal := true;
    }

    /** Cancel closes the form without clearing it. */
    method CloseModal()
      modifies this
      ensures !showAddModal && memories == old(memories) && form == old(form)
    {
      showAddModal := false;
    }

    /** Typing into one input of the form. */
    method EditField(field: FormField, value: string)
      modifies this
      ensures form == WithField(old(form), field, value)
      ensures memories == old(memories) && showAddModal == old(showAddModal)
    {
      form := WithField(form, field, value);
    }

    /** `addMemory`: with title, song and artist filled in, the memory built
        from the form goes to the front of the list, the form is cleared and
        the modal closes; otherwise nothing changes. */
    method AddMemory(nowId: int, date: string, hasPhoto: bool)
      modifies this
      ensures FormComplete(old(form)) ==>
                memories == [FromForm(old(form), nowId, date, hasPhoto)] + old(memories)
                && form == EmptyForm() && !showAddModal
      ensures !FormComplete(old(form)) ==>
                memories == old(memories) && form == old(form) && showAddModal == old(showAddModal)
    {
      if FormComplete(form) {
        var memory := FromForm(form, nowId, date, hasPhoto);
        memories := [memory] + memories;
        form := EmptyForm();
        showAddModal := false;
      }
    }

    /** `deleteMemory`: every memory with the id goes, the rest stay in order. */
    method DeleteMemory(id: int)
      modifies this
      ensures memories == RemoveId(old(memories), id)
      ensures form == old(form) && showAddModal == old(showAddModal)
    {
      memories := RemoveId(memories, id);
    }
  }

  /** A successful add grows the list by one and keeps the old list, in order,
      behind the new memory; deleting the new memory's fresh id restores it. */
  method AddThenDelete(j: MemoryJournal, nowId: int, date: string, hasPhoto: bool)
    requires FormComplete(j.form)
    requires forall k :: 0 <= k < |j.memories| ==> j.memories[k].id != nowId
    modifies j
    ensures j.memories == old(j.memories)
  {
    ghost var before := j.memories;
    j.AddMemory(nowId, date, hasPhoto);
    assert |j.memories| == |before| + 1 && j.memories[1..] == before;
    DeleteUndoesAdd(before, j.memories[0]);
    j.DeleteMemory(nowId);
  }
}
