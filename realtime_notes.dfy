/** The realtime-tree notes repository: the same operations on a `notes` node
    whose children are keyed by note id, with no sign-in check, no owner
    stamping and no owner filter. A note id is a path below `notes`: the empty
    id addresses the `notes` node itself. */
module RealtimeNotes {
  import opened Results
  import opened Model

  const NoteNotFound := "Note not found"
  /** The object mapper's exception when a value is not a note (a text where an
      object is expected, an object where a text is, an unknown status name).
      Its wording names the offending types; one text stands for all of them. */
  const ConversionFailed := "Can't convert object of type java.lang.String to type com.instant.firebasenotesproject.model.Note"

  /** The SDK refuses a child path holding any of these characters. */
  predicate HasForbiddenChar(path: string) {
    exists i :: 0 <= i < |path| && path[i] in ".#$[]"
  }

  /** The exception `child(path)` throws for such a path. */
  function InvalidPathMessage(path: string): string {
    "Invalid Firebase Database path: " + path
      + ". Firebase Database paths must not contain '.', '#', '$', '[', or ']'"
  }

  /** A child of the `notes` node: a whole note; only a `status` value, which
      is what a status write under an absent key leaves behind; or a bare text
      value, which is what a write to the `notes` node itself leaves. */
  datatype Child = Full(note: Note) | StatusOnly(status: NoteStatus) | Text(value: string)

  /** `NoteStatus.name`, the form in which a status is stored. */
  function StatusName(s: NoteStatus): (name: string)
    ensures ParseStatus(name) == Some(s)
  {
    match s
    case Todo => "TODO"
    case InProgress => "IN_PROGRESS"
    case Done => "DONE"
  }

  /** `NoteStatus.valueOf`, as the mapper reads a stored status back. */
  function ParseStatus(name: string): Option<NoteStatus> {
    if name == "TODO" then Some(Todo)
    else if name == "IN_PROGRESS" then Some(InProgress)
    else if name == "DONE" then Some(Done)
    else None
  }

  /** `getValue(Note::class.java)` on a child object: fields missing from the
      child take their declared defaults, the id a freshly generated one. */
  function Decode(child: Child, generatedId: string): (n: Note)
    requires !child.Text?
    ensures child.Full? ==> n == child.note
    ensures child.StatusOnly? ==> n == DefaultNote(generatedId).(status := child.status)
  {
    match child
    case Full(n) => n
    case StatusOnly(s) => DefaultNote(generatedId).(status := s)
  }

  /** `setValue(note)` on the `notes` node itself: the note's fields become the
      node's children, each a text value. */
  function FieldsOf(note: Note): (fields: map<string, Child>)
    ensures fields.Keys == NoteFields
    ensures forall k :: k in fields ==> fields[k].Text?
  {
    map["id" := Text(note.id), "title" := Text(note.title),
        "description" := Text(note.description), "date" := Text(note.date),
        "time" := Text(note.time), "status" := Text(StatusName(note.status)),
        "userId" := Text(note.userId)]
  }

  /** The property names of a note. */
  const NoteFields: set<string> := {"id", "title", "description", "date", "time", "status", "userId"}

  /** One text property of a note read from a node: its default when absent,
      the text when present as one, a conversion error otherwise. */
  function TextField(node: map<string, Child>, name: string, default: string): Option<string> {
    if name !in node then Some(default)
    else if node[name].Text? then Some(node[name].value)
    else None
  }

  /** `getValue(Note::class.java)` on the `notes` node itself: keys that are not
      note properties are ignored, the others must hold texts. */
  function DecodeNode(node: map<string, Child>, generatedId: string): Option<Note> {
    var id := TextField(node, "id", generatedId);
    var title := TextField(node, "title", "");
    var description := TextField(node, "description", "");
    var date := TextField(node, "date", "");
    var time := TextField(node, "time", "");
    var status := TextField(node, "status", "TODO");
    var userId := TextField(node, "userId", "");
    if id.None? || title.None? || description.None? || date.None? || time.None?
       || status.None? || userId.None? || ParseStatus(status.value).None?
    then None
    else Some(Note(id.value, title.value, description.value, date.value, time.value,
                   ParseStatus(status.value).value, userId.value))
  }

  /** The tree after `child(note.id).setValue(note)`. */
  function AfterSetValue(tree: map<string, Child>, note: Note): map<string, Child> {
    if note.id == "" then FieldsOf(note) else tree[note.id := Full(note)]
  }

  /** The child left by `child("status").setValue(...)` under a key. */
  function WithStatus(existing: Option<Child>, newStatus: NoteStatus): (c: Child)
    ensures existing.Some? && existing.value.Full? ==>
              c.Full? && c.note == existing.value.note.(status := newStatus)
    ensures !(existing.Some? && existing.value.Full?) ==> c == StatusOnly(newStatus)
    ensures !c.Text? && Decode(c, "").status == newStatus
  {
    match existing
    case Some(Full(n)) => Full(n.(status := newStatus))
    case _ => StatusOnly(newStatus)
  }

  /** `notes` lists as `notes`, `keys[i]` being the key the i-th note was read
      from: one note per child, each child once. */
  ghost predicate DecodedFrom(tree: map<string, Child>, generatedId: string -> string,
                        notes: seq<Note>, keys: seq<string>)
  {
    && |keys| == |notes|
    && (forall i, j :: 0 <= i < j < |keys| ==> keys[i] != keys[j])
    && (forall k :: k in tree <==> k in keys)
    && (forall i :: 0 <= i < |keys| ==>
          && keys[i] in tree
          && !tree[keys[i]].Text?
          && notes[i] == Decode(tree[keys[i]], generatedId(keys[i])))
  }

  class NotesRepositoryImplFirebaseDatabase {
    var children: map<string, Child>

    /** Every whole note sits under its own id. */
    ghost predicate Valid()
      reads this
    {
      forall k :: k in children && children[k].Full? ==> children[k].note.id == k
    }

    constructor (children: map<string, Child>)
      requires forall k :: k in children && children[k].Full? ==> children[k].note.id == k
      ensures Valid() && this.children == children
    {
      this.children := children;
    }

    /** Writes the note exactly as given at the path of its id. */
    method AddNote(note: Note, fault: Fault) returns (r: Result<bool>)
      requires Valid()
      modifies this
      ensures Valid()
      ensures HasForbiddenChar(note.id) ==>
                r == Failure(Some(InvalidPathMessage(note.id))) && children == old(children)
      ensures !HasForbiddenChar(note.id) && fault.Fails? ==>
                r == Failure(fault.message) && children == old(children)
      ensures !HasForbiddenChar(note.id) && fault.NoFault? ==>
                r == Success(true) && children == AfterSetValue(old(children), note)
    {
      if HasForbiddenChar(note.id) {
        return Failure(Some(InvalidPathMessage(note.id)));
      }
      if fault.Fails? {
        return Failure(fault.message);
      }
      children := AfterSetValue(children, note);
      r := Success(true);
    }

    /** Overwrites the whole record at the path of the note's id. */
    method UpdateNote(note: Note, fault: Fault) returns (r: Result<bool>)
      requires Valid()
      modifies this
      ensures Valid()
      ensures HasForbiddenChar(note.id) ==>
                r == Failure(Some(InvalidPathMessage(note.id))) && children == old(children)
      ensures !HasForbiddenChar(note.id) && fault.Fails? ==>
                r == Failure(fault.message) && children == old(children)
      ensures !HasForbiddenChar(note.id) && fault.NoFault? ==>
                r == Success(true) && children == AfterSetValue(old(children), note)
    {
      if HasForbiddenChar(note.id) {
        return Failure(Some(InvalidPathMessage(note.id)));
      }
      if fault.Fails? {
        return Failure(fault.message);
      }
      children := AfterSetValue(children, note);
      r := Success(true);
    }

    method GetNoteById(noteId: string, generatedId: string, fault: Fault) returns (r: Result<Note>)
      requires Valid()
      ensures HasForbiddenChar(noteId) ==> r == Failure(Some(InvalidPathMessage(noteId)))
      ensures !HasForbiddenChar(noteId) && fault.Fails? ==> r == Failure(fault.message)
      ensures !HasForbiddenChar(noteId) && fault.NoFault? && noteId != "" ==>
                && (r.Success? <==> noteId in children && !children[noteId].Text?)
                && (noteId !in children ==> r == Failure(Some(NoteNotFound)))
                && (noteId in children && children[noteId].Text? ==> r == Failure(Some(ConversionFailed)))
                && (r.Success? ==> r.value == Decode(children[noteId], generatedId))
                && (r.Success? && children[noteId].Full? ==> r.value.id == noteId)
      ensures !HasForbiddenChar(noteId) && fault.NoFault? && noteId == "" ==>
                && (children == map[] ==> r == Failure(Some(NoteNotFound)))
                && (children != map[] && DecodeNode(children, generatedId).Some? ==>
                      r == Success(DecodeNode(children, generatedId).value))
                && (children != map[] && DecodeNode(children, generatedId).None? ==>
                      r == Failure(Some(ConversionFailed)))
    {
      if HasForbiddenChar(noteId) {
        return Failure(Some(InvalidPathMessage(noteId)));
      }
      if fault.Fails? {
        return Failure(fault.message);
      }
      if noteId == "" {
        if children == map[] {
          return Failure(Some(NoteNotFound));
        }
        var decoded := DecodeNode(children, generatedId);
        if decoded.None? {
          return Failure(Some(ConversionFailed));
        }
        return Success(decoded.value);
      }
      if noteId !in children {
        r := Failure(Some(NoteNotFound));
      } else if children[noteId].Text? {
        r := Failure(Some(ConversionFailed));
      } else {
        r := Success(Decode(children[noteId], generatedId));
      }
    }

    /** Writes only the `status` child under `noteId`; the other fields of that
        note and every other note stay as they were. */
    method UpdateNoteStatus(noteId: string, newStatus: NoteStatus, fault: Fault) returns (r: Result<bool>)
      requires Valid()
      modifies this
      ensures Valid()
      ensures HasForbiddenChar(noteId) ==>
                r == Failure(Some(InvalidPathMessage(noteId))) && children == old(children)
      ensures !HasForbiddenChar(noteId) && fault.Fails? ==>
                r == Failure(fault.message) && children == old(children)
      ensures !HasForbiddenChar(noteId) && fault.NoFault? ==> r == Success(true)
      ensures !HasForbiddenChar(noteId) && fault.NoFault? && noteId == "" ==>
                children == old(children)["status" := Text(StatusName(newStatus))]
      ensures !HasForbiddenChar(noteId) && fault.NoFault? && noteId != "" ==>
                && children.Keys == old(children).Keys + {noteId}
                && (forall k :: k in old(children) && k != noteId ==> children[k] == old(children)[k])
                && (noteId in old(children) && old(children)[noteId].Full? ==>
                      children[noteId] == Full(old(children)[noteId].note.(status := newStatus)))
                && (!(noteId in old(children) && old(children)[noteId].Full?) ==>
                      children[noteId] == StatusOnly(newStatus))
    {
      if HasForbiddenChar(noteId) {
        return Failure(Some(InvalidPathMessage(noteId)));
      }
      if fault.Fails? {
        return Failure(fault.message);
      }
      if noteId == "" {
        children := children["status" := Text(StatusName(newStatus))];
      } else {
        var existing := if noteId in children then Some(children[noteId]) else None;
        children := children[noteId := WithStatus(existing, newStatus)];
      }
      r := Success(true);
    }

    /** Removes the child at `noteId`; the empty id removes the whole node. */
    method DeleteNote(noteId: string, fault: Fault) returns (r: Result<bool>)
      requires Valid()
      modifies this
      ensures Valid()
      ensures HasForbiddenChar(noteId) ==>
                r == Failure(Some(InvalidPathMessage(noteId))) && children == old(children)
      ensures !HasForbiddenChar(noteId) && fault.Fails? ==>
                r == Failure(fault.message) && children == old(children)
      ensures !HasForbiddenChar(noteId) && fault.NoFault? ==> r == Success(true)
      ensures !HasForbiddenChar(noteId) && fault.NoFault? && noteId == "" ==> children == map[]
      ensures !HasForbiddenChar(noteId) && fault.NoFault? && noteId != "" ==>
                children == old(children) - {noteId}
    {
      if HasForbiddenChar(noteId) {
        return Failure(Some(InvalidPathMessage(noteId)));
      }
      if fault.Fails? {
        return Failure(fault.message);
      }
      if noteId == "" {
        children := map[];
      } else {
        children := children - {noteId};
      }
      r := Success(true);
    }

    /** `snapshot.children.mapNotNull { it.getValue(...) }` over the whole
        `notes` node: every child, whoever owns it; one child that is not an
        object fails the whole listing. */
    method GetAllNotes(generatedId: string -> string, fault: Fault) returns (r: Result<seq<Note>>)
      requires Valid()
      ensures fault.Fails? ==> r == Failure(fault.message)
      ensures fault.NoFault? && (exists k :: k in children && children[k].Text?) ==>
                r == Failure(Some(ConversionFailed))
      ensures fault.NoFault? && (forall k :: k in children ==> !children[k].Text?) ==>
                && r.Success?
                && |r.value| == |children|
                && (exists keys ::
                      && DecodedFrom(children, generatedId, r.value, keys)
                      && (forall i :: 0 <= i < |keys| && children[keys[i]].Full? ==> r.value[i].id == keys[i]))
    {
      if fault.Fails? {
        return Failure(fault.message);
      }
      if exists k :: k in children && children[k].Text? {
        return Failure(Some(ConversionFailed));
      }
      var notes, keys := DecodeAll(children, generatedId);
      assert forall i :: 0 <= i < |keys| && children[keys[i]].Full? ==> notes[i].id == keys[i];
      r := Success(notes);
    }
  }

  /** Decodes every child object of a snapshot of the `notes` node, one note per
      child, and reports the key each note was read from. `generatedId(k)` is
      the id the decoder invents for the child under `k` when that child
      carries none. */
  method DecodeAll(tree: map<string, Child>, generatedId: string -> string)
    returns (notes: seq<Note>, keys: seq<string>)
    requires forall k :: k in tree ==> !tree[k].Text?
    ensures DecodedFrom(tree, generatedId, notes, keys)
    ensures |notes| == |tree|
    ensures forall k :: k in tree ==> Decode(tree[k], generatedId(k)) in notes
    ensures forall n :: n in notes ==> exists k :: k in tree && n == Decode(tree[k], generatedId(k))
  {
    var remaining := tree.Keys;
    notes := [];
    keys := [];
    while remaining != {}
      invariant remaining <= tree.Keys
      invariant |notes| == |keys| && |notes| + |remaining| == |tree|
      invariant forall i, j :: 0 <= i < j < |keys| ==> keys[i] != keys[j]
      invariant forall i :: 0 <= i < |keys| ==> keys[i] in tree && notes[i] == Decode(tree[keys[i]], generatedId(keys[i]))
      invariant forall k :: k in keys <==> k in tree && k !in remaining
      decreases remaining
    {
      var k :| k in remaining;
      notes := notes + [Decode(tree[k], generatedId(k))];
      keys := keys + [k];
      remaining := remaining - {k};
    }
    forall k | k in tree
      ensures Decode(tree[k], generatedId(k)) in notes
    {
      var i :| 0 <= i < |keys| && keys[i] == k;
      assert notes[i] == Decode(tree[k], generatedId(k));
    }
    forall n | n in notes
      ensures exists k :: k in tree && n == Decode(tree[k], generatedId(k))
    {
      var i :| 0 <= i < |notes| && notes[i] == n;
      assert keys[i] in tree;
    }
  }

  /** Unlike the document store, a status write needs no existing note: under a
      deleted or never-written id it leaves a status-only child, which reads
      back as a default note with that status and a fresh id, not the key. */
  lemma {:induction false} StatusWriteOnAbsentKey(children: map<string, Child>, noteId: string,
                                                   s: NoteStatus, generatedId: string)
    requires noteId !in children
    ensures var after := children[noteId := WithStatus(None, s)];
            && noteId in after
            && !after[noteId].Text?
            && Decode(after[noteId], generatedId) == DefaultNote(generatedId).(status := s)
  {
  }

  /** A note written at the `notes` node itself reads back whole from there. */
  lemma WholeNodeRoundTrip(note: Note, generatedId: string)
    ensures DecodeNode(FieldsOf(note), generatedId) == Some(note)
  {
  }

  /** Writing a note whose id is empty replaces every stored note by that
      note's fields: afterwards no note is left, the listing fails, and the
      `notes` node itself reads back as the written note. */
  method EmptyIdWriteReplacesAllNotes(tree: map<string, Child>, note: Note,
                                      generatedId: string -> string, freshId: string)
    returns (listed: Result<seq<Note>>, readBack: Result<Note>, after: map<string, Child>)
    requires forall k :: k in tree && tree[k].Full? ==> tree[k].note.id == k
    requires note.id == ""
    ensures forall k :: k in after ==> after[k].Text?
    ensures listed == Failure(Some(ConversionFailed))
    ensures readBack == Success(note)
  {
    var store := new NotesRepositoryImplFirebaseDatabase(tree);
    var updated := store.UpdateNote(note, NoFault);
    after := store.children;
    assert after["id"].Text?;
    listed := store.GetAllNotes(generatedId, NoFault);
    WholeNodeRoundTrip(note, freshId);
    readBack := store.GetNoteById("", freshId, NoFault);
  }
}
