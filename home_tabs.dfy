/** The home screen's three tabs: the note list filtered by status, the
    message shown for an empty tab, and the actions each note item offers. */
module HomeTabs {
  import opened Model
  import Home

  /** `notes.filter { it.status == status }`. */
  function FilterByStatus(notes: seq<Note>, status: NoteStatus): (r: seq<Note>)
    ensures |r| <= |notes|
    ensures forall n :: n in r <==> n in notes && n.status == status
  {
    if notes == [] then []
    else if notes[0].status == status then [notes[0]] + FilterByStatus(notes[1..], status)
    else FilterByStatus(notes[1..], status)
  }

  /** `xs` is `ys` with some elements left out and the rest in their order. */
  predicate IsSubsequence(xs: seq<Note>, ys: seq<Note>)
    decreases |ys|
  {
    if xs == [] then true
    else if ys == [] then false
    else if xs[0] == ys[0] then IsSubsequence(xs[1..], ys[1..])
    else IsSubsequence(xs, ys[1..])
  }

  /** Filtering keeps the relative order of the notes. */
  lemma {:induction false} FilterPreservesOrder(notes: seq<Note>, status: NoteStatus)
    ensures IsSubsequence(FilterByStatus(notes, status), notes)
  {
    if notes != [] {
      FilterPreservesOrder(notes[1..], status);
      var rest := FilterByStatus(notes[1..], status);
      if notes[0].status != status {
        SkipHeadKeepsSubsequence(rest, notes);
      }
    }
  }

  lemma {:induction false} SkipHeadKeepsSubsequence(xs: seq<Note>, ys: seq<Note>)
    requires ys != [] && IsSubsequence(xs, ys[1..])
    ensures IsSubsequence(xs, ys)
    decreases |ys|, 0
  {
    if xs != [] && xs[0] == ys[0] {
      // the greedy match takes ys[0]; xs[1..] still embeds in what follows
      SubsequenceDropHead(xs, ys[1..]);
    }
  }

  lemma {:induction false} SubsequenceDropHead(xs: seq<Note>, ys: seq<Note>)
    requires xs != [] && IsSubsequence(xs, ys)
    ensures IsSubsequence(xs[1..], ys)
    decreases |ys|, 1
  {
    if xs[0] == ys[0] {
      SkipHeadKeepsSubsequence(xs[1..], ys);
    } else {
      SubsequenceDropHead(xs, ys[1..]);
      SkipHeadKeepsSubsequence(xs[1..], ys);
    }
  }

  /** Each note occurs in its tab exactly as often as in the whole list, and
      never in another tab. */
  lemma {:induction false} FilterCounts(notes: seq<Note>, status: NoteStatus, n: Note)
    ensures multiset(FilterByStatus(notes, status))[n] ==
            if n.status == status then multiset(notes)[n] else 0
  {
    if notes != [] {
      FilterCounts(notes[1..], status, n);
      assert notes == [notes[0]] + notes[1..];
    }
  }

  /** The pages of the pager and their labels. */
  const TabCount: nat := 3

  function TabStatus(page: nat): NoteStatus
    requires page < TabCount
  {
    if page == 0 then Todo else if page == 1 then InProgress else Done
  }

  function TabLabel(page: nat): (name: string)
    requires page < TabCount
    ensures name != ""
    ensures page == 0 ==> name == "TODO"
    ensures page == 1 ==> name == "In Progress"
    ensures page == 2 ==> name == "Done"
  {
    if page == 0 then "TODO" else if page == 1 then "In Progress" else "Done"
  }

  /** The notes page `page` lists. */
  function TabNotes(notes: seq<Note>, page: nat): (r: seq<Note>)
    requires page < TabCount
    ensures forall n :: n in r <==> n in notes && n.status == TabStatus(page)
    ensures IsSubsequence(r, notes)
  {
    FilterPreservesOrder(notes, TabStatus(page));
    FilterByStatus(notes, TabStatus(page))
  }

  /** A note is listed in at most one tab. */
  lemma AtMostOneTab(notes: seq<Note>, n: Note, p: nat, q: nat)
    requires p < TabCount && q < TabCount
    requires n in TabNotes(notes, p) && n in TabNotes(notes, q)
    ensures p == q
  {
  }

  /** Together the tabs never list more notes than the state holds. */
  lemma {:induction false} TabsPartitionAtMost(notes: seq<Note>)
    ensures |TabNotes(notes, 0)| + |TabNotes(notes, 1)| + |TabNotes(notes, 2)| <= |notes|
  {
    if notes != [] {
      TabsPartitionAtMost(notes[1..]);
    }
  }

  /** What a tab shows: the message for an empty tab, the list otherwise. */
  datatype TabView = EmptyMessage(text: string) | NoteItems(items: seq<Note>)

  function EmptyTabMessage(tabName: string): (text: string)
    ensures |text| == |tabName| + 19
    ensures text[..13] == "There are no " && text[|text| - 6..] == " notes"
    ensures text[13..|text| - 6] == tabName
  {
    "There are no " + tabName + " notes"
  }

  function TabContent(notes: seq<Note>, page: nat): (v: TabView)
    requires page < TabCount
    ensures v.EmptyMessage? <==> TabNotes(notes, page) == []
    ensures v.EmptyMessage? ==> v.text == EmptyTabMessage(TabLabel(page))
    ensures v.NoteItems? ==> v.items == TabNotes(notes, page)
  {
    var shown := TabNotes(notes, page);
    if shown == [] then EmptyMessage(EmptyTabMessage(TabLabel(page))) else NoteItems(shown)
  }

  /** The choices of a note item's status menu, in menu order. */
  const StatusMenu: seq<NoteStatus> := [Todo, InProgress, Done]

  /** What a note item can ask the home view model to do. */
  datatype ItemAction = ChooseStatus(status: NoteStatus) | Edit | Delete

  /** The home intent a note item dispatches: each carries that note's own id. */
  function ItemDispatch(note: Note, action: ItemAction): (intent: Home.HomeUiIntent)
    ensures action.ChooseStatus? <==> intent.UpdateNoteStatus?
    ensures action.ChooseStatus? ==> intent.noteId == note.id && intent.newStatus == action.status
    ensures action.Edit? <==> intent.EditNote?
    ensures action.Edit? ==> intent.noteId == note.id
    ensures action.Delete? <==> intent.DeleteNote?
    ensures action.Delete? ==> intent.noteId == note.id
  {
    match action
    case ChooseStatus(s) => Home.UpdateNoteStatus(note.id, s)
    case Edit => Home.EditNote(note.id)
    case Delete => Home.DeleteNote(note.id)
  }

  /** The menu does not enforce TODO, then In Progress, then Done: from any note
      every status on the menu, its current one included, can be chosen. */
  lemma StatusChangesUnrestricted(note: Note, target: NoteStatus)
    requires target in StatusMenu
    ensures exists i ::
              && 0 <= i < |StatusMenu|
              && ItemDispatch(note, ChooseStatus(StatusMenu[i])) == Home.UpdateNoteStatus(note.id, target)
  {
    var i := if target == Todo then 0 else if target == InProgress then 1 else 2;
    assert StatusMenu[i] == target;
  }
}
