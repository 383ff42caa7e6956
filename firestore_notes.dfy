/** The document-store notes repository: a `notes` collection keyed by note id,
    with every write stamped with the signed-in user's id and every listing
    restricted to that user's notes. */
module FirestoreNotes {
  import opened Results
  import opened Model

  const NotLoggedIn := "User is not logged in"
  const NoteNotFound := "Note not found"
  /** The store refuses a field update on a document that does not exist; the
      text of its exception is the backend's, approximated here. */
  const NoDocumentToUpdate := "NOT_FOUND: No document to update"
  /** `document("")` names the collection itself, which has an odd number of
      path segments, so the SDK refuses it before any request is made; the
      text of its exception is approximated here. */
  const InvalidDocumentReference :=
    "Invalid document reference. Document references must have an even number of segments, but notes has 1"

  /** `note.copy(userId = uid)`: the owner is replaced, every other field kept. */
  function StampOwner(note: Note, uid: string): (r: Note)
    ensures r.userId == uid
    ensures r.(userId := note.userId) == note
  {
    note.(userId := uid)
  }

  /** The owner an update writes: an owner already on the note is kept, even
      when it is not the signed-in user; a note without one is stamped. */
  function OwnerOnUpdate(note: Note, uid: string): (r: Note)
    ensures r.(userId := note.userId) == note
    ensures note.userId != "" ==> r == note
    ensures note.userId == "" ==> r.userId == uid
  {
    if note.userId == "" then StampOwner(note, uid) else note
  }

  predicate OwnedBy(note: Note, uid: string) {
    note.userId == uid
  }

  /** No two notes of a listing share an id. */
  predicate DistinctIds(notes: seq<Note>) {
    forall i, j :: 0 <= i < j < |notes| ==> notes[i].id != notes[j].id
  }

  class NotesRepositoryImpl {
    /** The `notes` collection: document id to stored note. */
    var documents: map<string, Note>
    /** `auth.currentUser?.uid`. */
    var currentUid: Option<string>

    /** Every document is stored under its own note's id. */
    ghost predicate Valid()
      reads this
    {
      forall k :: k in documents ==> documents[k].id == k
    }

    constructor (documents: map<string, Note>, currentUid: Option<string>)
      requires forall k :: k in documents ==> documents[k].id == k
      ensures Valid()
      ensures this.documents == documents && this.currentUid == currentUid
    {
      this.documents := documents;
      this.currentUid := currentUid;
    }

    method AddNote(note: Note, fault: Fault) returns (r: Result<bool>)
      requires Valid()
      modifies this`documents
      ensures Valid()
      ensures currentUid.None? ==> r == Failure(Some(NotLoggedIn)) && documents == old(documents)
      ensures currentUid.Some? && note.id == "" ==>
                r == Failure(Some(InvalidDocumentReference)) && documents == old(documents)
      ensures currentUid.Some? && note.id != "" && fault.Fails? ==>
                r == Failure(fault.message) && documents == old(documents)
      ensures currentUid.Some? && note.id != "" && fault.NoFault? ==>
                && r == Success(true)
                && documents == old(documents)[note.id := StampOwner(note, currentUid.value)]
    {
      if currentUid.None? {
        return Failure(Some(NotLoggedIn));
      }
      if note.id == "" {
        return Failure(Some(InvalidDocumentReference));
      }
      if fault.Fails? {
        return Failure(fault.message);
      }
      var noteWithUserId := StampOwner(note, currentUid.value);
      documents := documents[note.id := noteWithUserId];
      r := Success(true);
    }

    method UpdateNote(note: Note, fault: Fault) returns (r: Result<bool>)
      requires Valid()
      modifies this`documents
      ensures Valid()
      ensures currentUid.None? ==> r == Failure(Some(NotLoggedIn)) && documents == old(documents)
      ensures currentUid.Some? && note.id == "" ==>
                r == Failure(Some(InvalidDocumentReference)) && documents == old(documents)
      ensures currentUid.Some? && note.id != "" && fault.Fails? ==>
                r == Failure(fault.message) && documents == old(documents)
      ensures currentUid.Some? && note.id != "" && fault.NoFault? ==>
                && r == Success(true)
                && documents == old(documents)[note.id := OwnerOnUpdate(note, currentUid.value)]
    {
      if currentUid.None? {
        return Failure(Some(NotLoggedIn));
      }
      if note.id == "" {
        return Failure(Some(InvalidDocumentReference));
      }
      if fault.Fails? {
        return Failure(fault.message);
      }
      var updatedNote := OwnerOnUpdate(note, currentUid.value);
      documents := documents[note.id := updatedNote];
      r := Success(true);
    }

    /** Reads one document; no sign-in is needed. */
    method GetNoteById(noteId: string, fault: Fault) returns (r: Result<Note>)
      ensures noteId == "" ==> r == Failure(Some(InvalidDocumentReference))
      ensures noteId != "" && fault.Fails? ==> r == Failure(fault.message)
      ensures noteId != "" && fault.NoFault? ==> (r.Success? <==> noteId in documents)
      ensures noteId != "" && fault.NoFault? && r.Success? ==> noteId in documents && r.value == documents[noteId]
      ensures noteId != "" && fault.NoFault? && r.Failure? ==> r.message == Some(NoteNotFound)
    {
      if noteId == "" {
        return Failure(Some(InvalidDocumentReference));
      }
      if fault.Fails? {
        return Failure(fault.message);
      }
      if noteId in documents {
        r := Success(documents[noteId]);
      } else {
        r := Failure(Some(NoteNotFound));
      }
    }

    /** Writes the `status` field of one document. Neither sign-in nor ownership
        is checked. */
    method UpdateNoteStatus(noteId: string, newStatus: NoteStatus, fault: Fault) returns (r: Result<bool>)
      requires Valid()
      modifies this`documents
      ensures Valid()
      ensures noteId == "" ==> r == Failure(Some(InvalidDocumentReference)) && documents == old(documents)
      ensures noteId != "" && fault.Fails? ==> r == Failure(fault.message) && documents == old(documents)
      ensures noteId != "" && fault.NoFault? && noteId !in old(documents) ==>
                r == Failure(Some(NoDocumentToUpdate)) && documents == old(documents)
      ensures noteId != "" && fault.NoFault? && noteId in old(documents) ==>
                && r == Success(true)
                && documents == old(documents)[noteId := old(documents)[noteId].(status := newStatus)]
    {
      if noteId == "" {
        return Failure(Some(InvalidDocumentReference));
      }
      if fault.Fails? {
        return Failure(fault.message);
      }
      if noteId !in documents {
        return Failure(Some(NoDocumentToUpdate));
      }
      documents := documents[noteId := documents[noteId].(status := newStatus)];
      r := Success(true);
    }

    /** Removes one document, whoever owns it; removing an absent one succeeds. */
    method DeleteNote(noteId: string, fault: Fault) returns (r: Result<bool>)
      requires Valid()
      modifies this`documents
      ensures Valid()
      ensures noteId == "" ==> r == Failure(Some(InvalidDocumentReference)) && documents == old(documents)
      ensures noteId != "" && fault.Fails? ==> r == Failure(fault.message) && documents == old(documents)
      ensures noteId != "" && fault.NoFault? ==> r == Success(true) && documents == old(documents) - {noteId}
    {
      if noteId == "" {
        return Failure(Some(InvalidDocumentReference));
      }
      if fault.Fails? {
        return Failure(fault.message);
      }
      documents := documents - {noteId};
      r := Success(true);
    }

    /** The query `whereEqualTo("userId", uid)`: exactly the signed-in user's
        notes, each once. */
    method GetAllNotes(fault: Fault) returns (r: Result<seq<Note>>)
      requires Valid()
      ensures currentUid.None? ==> r == Failure(Some(NotLoggedIn))
      ensures currentUid.Some? && fault.Fails? ==> r == Failure(fault.message)
      ensures currentUid.Some? && fault.NoFault? ==>
                && r.Success?
                && (forall n :: n in r.value <==> n in documents.Values && OwnedBy(n, currentUid.value))
                && DistinctIds(r.value)
    {
      if currentUid.None? {
        return Failure(Some(NotLoggedIn));
      }
      if fault.Fails? {
        return Failure(fault.message);
      }
      var uid := currentUid.value;
      var remaining := documents.Keys;
      var notes: seq<Note> := [];
      while remaining != {}
        invariant remaining <= documents.Keys
        invariant forall n :: n in notes <==>
                    n.id in documents.Keys - remaining && documents[n.id] == n && OwnedBy(n, uid)
        invariant DistinctIds(notes)
        decreases remaining
      {
        var k :| k in remaining;
        var doc := documents[k];
        if OwnedBy(doc, uid) {
          notes := notes + [doc];
        }
        remaining := remaining - {k};
      }
      forall n | n in documents.Values
        ensures n.id in documents && documents[n.id] == n
      {
        var k :| k in documents && documents[k] == n;
      }
      r := Success(notes);
    }
  }

  /** A note added by a signed-in user is listed for that user, stamped as
      theirs, and the listing holds nobody else's notes. */
  method AddedNoteIsListedForItsOwner(docs: map<string, Note>, uid: string, note: Note)
    returns (listed: Result<seq<Note>>)
    requires forall k :: k in docs ==> docs[k].id == k
    requires note.id != ""
    ensures listed.Success?
    ensures StampOwner(note, uid) in listed.value
    ensures forall n :: n in listed.value ==> n.userId == uid
    ensures DistinctIds(listed.value)
  {
    var store := new NotesRepositoryImpl(docs, Some(uid));
    var added := store.AddNote(note, NoFault);
    listed := store.GetAllNotes(NoFault);
    assert store.documents[note.id] == StampOwner(note, uid);
  }

  /** With nobody signed in, neither a write nor a listing gets through, and
      the collection is left as it was. */
  method SignedOutChangesNothing(docs: map<string, Note>, note: Note)
    returns (added: Result<bool>, updated: Result<bool>, listed: Result<seq<Note>>, after: map<string, Note>)
    requires forall k :: k in docs ==> docs[k].id == k
    ensures added == updated == Failure(Some(NotLoggedIn))
    ensures listed == Failure(Some(NotLoggedIn))
    ensures after == docs
  {
    var store := new NotesRepositoryImpl(docs, None);
    added := store.AddNote(note, NoFault);
    updated := store.UpdateNote(note, NoFault);
    listed := store.GetAllNotes(NoFault);
    after := store.documents;
  }

  /** An update from a different user keeps the note's first owner, so that
      owner still lists it and the updating user does not. */
  lemma ForeignUpdateKeepsOwner(note: Note, owner: string, other: string)
    requires owner != "" && owner != other
    ensures var stored := OwnerOnUpdate(StampOwner(note, owner), other);
            && OwnedBy(stored, owner)
            && !OwnedBy(stored, other)
            && stored.(userId := note.userId) == note
  {
  }
}
