/** The records the app stores and shows: notes and users. */
module Model {
  /** The workflow stage of a note. The enum declaration is not part of this
      model; these are the three constants the code refers to. */
  datatype NoteStatus = Todo | InProgress | Done

  datatype Note = Note(
    id: string,
    title: string,
    description: string,
    date: string,
    time: string,
    status: NoteStatus,
    userId: string)  // "" when the note has no owner yet

  /** `Note(id = generatedId)`: every other field takes its declared default.
      The default id is a random UUID, which the model receives as a parameter. */
  function DefaultNote(generatedId: string): (n: Note)
    ensures n.id == generatedId
    ensures n.title == n.description == n.date == n.time == ""
    ensures n.status == Todo
    ensures n.userId == ""
  {
    Note(generatedId, "", "", "", "", Todo, "")
  }

  datatype User = User(
    uid: string,
    firstName: string,
    lastName: string,
    jobTitle: string,
    email: string,
    date: string,
    time: string,
    profileImageUrl: string)

  /** Kotlin's `Char.isWhitespace()` on the JVM: `Character.isWhitespace` or
      `Character.isSpaceChar`, i.e. the control characters 9-13 and 28-31 and
      every space, line or paragraph separator, the no-break spaces included. */
  predicate IsWhitespace(c: char): (r: bool)
    ensures c == ' ' || c == '\t' || c == '\n' || c == '\r' ==> r
    ensures c == '\U{A0}' || c == '\U{2007}' || c == '\U{202F}' ==> r  // no-break spaces count
    ensures '0' <= c <= '9' || 'a' <= c <= 'z' || 'A' <= c <= 'Z' ==> !r
    ensures c == '\U{200B}' || c == '\U{FEFF}' ==> !r  // zero-width characters do not
  {
    || '\t' <= c <= '\r'
    || '\U{1C}' <= c <= '\U{1F}'
    || c == ' ' || c == '\U{A0}' || c == '\U{1680}'
    || '\U{2000}' <= c <= '\U{200A}'
    || c == '\U{2028}' || c == '\U{2029}' || c == '\U{202F}' || c == '\U{205F}' || c == '\U{3000}'
  }

  /** Kotlin's `CharSequence.isBlank()`: empty, or whitespace only. */
  predicate IsBlank(s: string) {
    forall i :: 0 <= i < |s| ==> IsWhitespace(s[i])
  }

  /** Kotlin's `trimStart()`: the text from its first non-whitespace character on. */
  function TrimStart(s: string): (r: string)
    ensures |r| <= |s| && r == s[|s| - |r|..]
    ensures r != [] ==> !IsWhitespace(r[0])
    ensures forall i :: 0 <= i < |s| - |r| ==> IsWhitespace(s[i])
  {
    if s != [] && IsWhitespace(s[0]) then TrimStart(s[1..]) else s
  }

  /** `isBlank()` agrees with trimming: a field is blank exactly when trimming
      its leading whitespace leaves nothing. */
  lemma {:induction false} BlankIffTrimmedEmpty(s: string)
    ensures IsBlank(s) <==> TrimStart(s) == []
    decreases |s|
  {
    if s != [] && IsWhitespace(s[0]) {
      BlankIffTrimmedEmpty(s[1..]);
      assert IsBlank(s) <==> IsBlank(s[1..]) by {
        if IsBlank(s[1..]) {
          forall i | 0 <= i < |s|
            ensures IsWhitespace(s[i])
          {
            if i > 0 {
              assert s[i] == s[1..][i - 1];
            }
          }
        }
      }
    }
  }
}
